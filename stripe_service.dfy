/**
 * The backend's payment bookkeeping (server/services/stripe.ts). The payment
 * processor is an abstract table of customers (each with its listed cards),
 * checkout sessions and created payment intents; the user records live in the
 * document store's `users` map. Ids the processor generates and timestamps are
 * parameters. There is no debit operation and no de-duplication by payment id,
 * and the model has neither.
 */
module StripeService {
  import opened Common
  import opened Firestore

  /** A processor-side customer: who it was created for and its cards, most recent first. */
  datatype Customer = Customer(userId: string, email: Option<string>, cards: seq<string>)

  /** A checkout session in "setup" mode, created to capture a card. */
  datatype CheckoutSession = CheckoutSession(
    customer: string, mode: string, userId: string, email: Option<string>,
    status: Option<string>, url: Option<string>)

  /**
   * The metadata the backend attaches to a payment intent. `tokens` is sent as a
   * decimal string and read back with `parseInt`; here it is the number, and
   * `None` stands for a missing or empty value.
   */
  datatype Metadata = Metadata(userId: Option<string>, tokens: Option<nat>)

  /** A payment intent created and confirmed by `chargeCustomer`. */
  datatype PaymentIntent = PaymentIntent(
    id: string, amount: nat, currency: string, customer: string,
    paymentMethod: string, description: string, metadata: Metadata)

  /** What `createIntentSession` returns to the client. */
  datatype Intent = Intent(id: string, url: Option<string>)

  /** The object carried by a webhook event (a checkout session or a payment intent). */
  datatype EventObject = EventObject(id: string, amount: int, metadata: Option<Metadata>)

  datatype Event = Event(eventType: string, data: EventObject)

  /** The handler `handleWebhookEvent` picks for an event type. */
  datatype Handler = SetupHandler | PaymentHandler | Unhandled

  /** The price of one token, in cents. */
  const CentsPerToken: nat := 10

  class StripeAccount {
    var customers: map<string, Customer>
    var sessions: map<string, CheckoutSession>
    var paymentIntents: seq<PaymentIntent>

    constructor(customers: map<string, Customer>, sessions: map<string, CheckoutSession>)
      ensures this.customers == customers && this.sessions == sessions && paymentIntents == []
    {
      this.customers := customers;
      this.sessions := sessions;
      paymentIntents := [];
    }
  }

  /** `Math.floor(amount / 10)`: one token per ten cents. */
  function TokensForAmount(amount: nat): (tokens: nat)
    ensures tokens * CentsPerToken <= amount < (tokens + 1) * CentsPerToken
  {
    amount / CentsPerToken
  }

  /** A charge of 500 cents carries 50 tokens. */
  lemma FiveDollarsIsFiftyTokens()
    ensures TokensForAmount(500) == 50
  {
  }

  /** The user record already holds a (non-empty) processor customer id. */
  predicate HasCustomer(users: map<string, UserDoc>, userId: string) {
    userId in users && Truthy(users[userId].stripeCustomerId)
  }

  /** The customer id the session is created for: the stored one, else the new one. */
  function CustomerFor(users: map<string, UserDoc>, userId: string, newCustomerId: string): (id: string)
    ensures HasCustomer(users, userId) ==> Some(id) == users[userId].stripeCustomerId
    ensures !HasCustomer(users, userId) ==> id == newCustomerId
  {
    if HasCustomer(users, userId) then users[userId].stripeCustomerId.value else newCustomerId
  }

  /**
   * The user records after the lookup-or-create step: unchanged when a customer
   * id is stored, otherwise the new id merged into the (possibly new) record,
   * keeping every other field.
   */
  function UsersWithCustomer(users: map<string, UserDoc>, userId: string, newCustomerId: string)
    : (r: map<string, UserDoc>)
    requires newCustomerId != ""
    ensures HasCustomer(r, userId)
    ensures r[userId].stripeCustomerId == Some(CustomerFor(users, userId, newCustomerId))
    ensures r.Keys == users.Keys + {userId}
    ensures forall u :: u in users && u != userId ==> r[u] == users[u]
    ensures userId in users ==> r[userId] == users[userId].(stripeCustomerId := r[userId].stripeCustomerId)
    ensures userId !in users ==> r[userId] == EmptyUser.(stripeCustomerId := Some(newCustomerId))
  {
    if HasCustomer(users, userId) then users
    else
      var before := if userId in users then users[userId] else EmptyUser;
      users[userId := before.(stripeCustomerId := Some(newCustomerId), email := before.email)]
  }

  /**
   * Lookup-or-create is idempotent: once a customer id is stored, a second
   * session request reuses it and writes nothing, whatever id the processor
   * would have generated.
   */
  lemma CustomerCreatedOnce(users: map<string, UserDoc>, userId: string, id1: string, id2: string)
    requires id1 != "" && id2 != ""
    ensures UsersWithCustomer(UsersWithCustomer(users, userId, id1), userId, id2) == UsersWithCustomer(users, userId, id1)
    ensures CustomerFor(UsersWithCustomer(users, userId, id1), userId, id2) == CustomerFor(users, userId, id1)
  {
  }

  /**
   * `createIntentSession`: refuses an empty user id; reuses the stored customer
   * id or creates exactly one customer and merges its id into the user record;
   * then opens a setup-mode checkout session for that customer (which the
   * processor refuses when it does not know a stored customer id).
   * The processor's fresh ids are the parameters `newCustomerId` and `newSessionId`.
   */
  method CreateIntentSession(db: Database, stripe: StripeAccount, userId: string,
                             newCustomerId: string, newSessionId: string, sessionUrl: Option<string>)
    returns (r: Result<Intent>)
    requires newCustomerId != "" && newCustomerId !in stripe.customers
    requires newSessionId !in stripe.sessions
    modifies db, stripe
    ensures userId == "" ==> r == Err(Thrown("User ID is required"))
    ensures userId == "" ==> db.users == old(db.users) && stripe.customers == old(stripe.customers)
                             && stripe.sessions == old(stripe.sessions)
    ensures userId != "" ==> db.users == UsersWithCustomer(old(db.users), userId, newCustomerId)
    ensures userId != "" && HasCustomer(old(db.users), userId) ==> stripe.customers == old(stripe.customers)
    ensures userId != "" && !HasCustomer(old(db.users), userId) ==>
      stripe.customers == old(stripe.customers)[newCustomerId := Customer(userId, EmailOf(old(db.users), userId), [])]
    ensures userId != "" && CustomerFor(old(db.users), userId, newCustomerId) !in stripe.customers ==>
      r.Err? && r.error.Upstream? && stripe.sessions == old(stripe.sessions)
    ensures userId != "" && CustomerFor(old(db.users), userId, newCustomerId) in stripe.customers ==>
      r == Ok(Intent(newSessionId, sessionUrl))
      && stripe.sessions == old(stripe.sessions)[newSessionId :=
           CheckoutSession(CustomerFor(old(db.users), userId, newCustomerId), "setup", userId,
                           EmailOf(old(db.users), userId), Some("open"), sessionUrl)]
    ensures db.threads == old(db.threads) && stripe.paymentIntents == old(stripe.paymentIntents)
  {
    if userId == "" {
      return Err(Thrown("User ID is required"));
    }
    var customerId: string;
    var email := EmailOf(db.users, userId);
    if HasCustomer(db.users, userId) {
      customerId := db.users[userId].stripeCustomerId.value;
    } else {
      stripe.customers := stripe.customers[newCustomerId := Customer(userId, email, [])];
      customerId := newCustomerId;
      db.users := UsersWithCustomer(db.users, userId, customerId);
    }
    if customerId !in stripe.customers {
      return Err(Upstream("No such customer"));
    }
    stripe.sessions := stripe.sessions[newSessionId :=
      CheckoutSession(customerId, "setup", userId, email, Some("open"), sessionUrl)];
    r := Ok(Intent(newSessionId, sessionUrl));
  }

  /** `userSnapshot.data()?.email`. */
  function EmailOf(users: map<string, UserDoc>, userId: string): Option<string> {
    if userId in users then users[userId].email else None
  }

  /**
   * `verifyIntentSession`: the session's status, or "unknown" when it has none.
   * Retrieving a session the processor does not know fails.
   */
  function VerifyIntentSession(stripe: StripeAccount, sessionId: string): (r: Result<string>)
    reads stripe
    ensures sessionId !in stripe.sessions ==> r.Err?
    ensures sessionId in stripe.sessions ==> r.Ok? && r.value != ""
    ensures r.Ok? && Truthy(stripe.sessions[sessionId].status) ==> Some(r.value) == stripe.sessions[sessionId].status
    ensures r.Ok? && !Truthy(stripe.sessions[sessionId].status) ==> r.value == "unknown"
  {
    if sessionId !in stripe.sessions then Err(Upstream("No such checkout session"))
    else
      var status := stripe.sessions[sessionId].status;
      Ok(if Truthy(status) then status.value else "unknown")
  }

  /** The payment intent `chargeCustomer` creates: the customer's first listed card, tokens = floor(amount / 10). */
  function NewPaymentIntent(id: string, amount: nat, customer: string, card: string,
                            description: string, userId: string): (pi: PaymentIntent)
    ensures pi.metadata.tokens == Some(TokensForAmount(amount)) && pi.metadata.userId == Some(userId)
    ensures pi.amount == amount && pi.currency == "usd"
  {
    PaymentIntent(id, amount, "usd", customer, card, description,
                  Metadata(Some(userId), Some(TokensForAmount(amount))))
  }

  /**
   * `chargeCustomer`: charges the first card listed for the user's stored
   * customer. Fails with "Customer not found" when there is no user record or no
   * stored customer id, and with "No payment method found" when no card is listed.
   * Nothing is written to the user records.
   */
  method ChargeCustomer(db: Database, stripe: StripeAccount, userId: string, amount: nat,
                        description: string, newIntentId: string)
    returns (r: Result<PaymentIntent>)
    modifies stripe
    ensures !HasCustomer(db.users, userId) ==> r == Err(Thrown("Customer not found"))
    ensures HasCustomer(db.users, userId) && db.users[userId].stripeCustomerId.value !in stripe.customers ==>
      r.Err? && r.error.Upstream?
    ensures HasCustomer(db.users, userId) && db.users[userId].stripeCustomerId.value in stripe.customers ==>
      var cid := db.users[userId].stripeCustomerId.value;
      var cards := stripe.customers[cid].cards;
      (cards == [] ==> r == Err(Thrown("No payment method found")))
      && (cards != [] ==> r == Ok(NewPaymentIntent(newIntentId, amount, cid, cards[0], description, userId)))
    ensures r.Ok? ==> stripe.paymentIntents == old(stripe.paymentIntents) + [r.value]
    ensures r.Err? ==> stripe.paymentIntents == old(stripe.paymentIntents)
    ensures stripe.customers == old(stripe.customers) && stripe.sessions == old(stripe.sessions)
  {
    if !HasCustomer(db.users, userId) {
      return Err(Thrown("Customer not found"));
    }
    var customerId := db.users[userId].stripeCustomerId.value;
    if customerId !in stripe.customers {
      return Err(Upstream("No such customer"));
    }
    var paymentMethods := stripe.customers[customerId].cards;
    if |paymentMethods| == 0 {
      return Err(Thrown("No payment method found"));
    }
    var paymentMethodId := paymentMethods[0];
    var paymentIntent := NewPaymentIntent(newIntentId, amount, customerId, paymentMethodId, description, userId);
    stripe.paymentIntents := stripe.paymentIntents + [paymentIntent];
    r := Ok(paymentIntent);
  }

  /** The `switch` of `handleWebhookEvent`. */
  function Route(eventType: string): (h: Handler)
    ensures h == SetupHandler <==> eventType == "checkout.session.completed"
    ensures h == PaymentHandler <==> eventType == "payment_intent.succeeded"
  {
    if eventType == "checkout.session.completed" then SetupHandler
    else if eventType == "payment_intent.succeeded" then PaymentHandler
    else Unhandled
  }

  /** `object.metadata || {}`. */
  function MetadataOf(obj: EventObject): (m: Metadata)
    ensures obj.metadata.Some? ==> m == obj.metadata.value
    ensures obj.metadata.None? ==> m.userId.None? && m.tokens.None?
  {
    obj.metadata.GetOr(Metadata(None, None))
  }

  /**
   * The user records after a completed setup session: the addressed user gets
   * `hasPaymentMethod` and the setup date; a missing user id writes nothing;
   * a user without a record makes the store refuse the update.
   */
  function UsersAfterSetup(users: map<string, UserDoc>, session: EventObject, now: nat)
    : (r: Result<map<string, UserDoc>>)
    ensures !Truthy(MetadataOf(session).userId) ==> r == Ok(users)
    ensures Truthy(MetadataOf(session).userId) && MetadataOf(session).userId.value !in users ==> r == Err(NotFound)
    ensures r.Ok? ==> r.value.Keys == users.Keys
    ensures r.Ok? && Truthy(MetadataOf(session).userId) ==>
      var u := MetadataOf(session).userId.value;
      r.value[u].hasPaymentMethod == Some(true)
      && r.value[u] == users[u].(hasPaymentMethod := Some(true), paymentMethodSetupDate := Some(now))
      && forall v :: v in users && v != u ==> r.value[v] == users[v]
  {
    var md := MetadataOf(session);
    if !Truthy(md.userId) then Ok(users)
    else if md.userId.value !in users then Err(NotFound)
    else
      var u := md.userId.value;
      Ok(users[u := users[u].(hasPaymentMethod := Some(true), paymentMethodSetupDate := Some(now))])
  }

  /** `FieldValue.arrayUnion(entry)`: appends the entry unless an equal one is already there. */
  function ArrayUnion(history: seq<Purchase>, entry: Purchase): (r: seq<Purchase>)
    ensures entry in r
    ensures history <= r && |r| <= |history| + 1
    ensures entry !in history ==> r == history + [entry]
    ensures entry in history ==> r == history
  {
    if entry in history then history else history + [entry]
  }

  /** The token balance a user record shows (`tokenBalance || 0`; no record reads as 0). */
  function BalanceOf(users: map<string, UserDoc>, userId: string): (b: int)
    ensures userId !in users || users[userId].tokenBalance.None? ==> b == 0
    ensures userId in users && users[userId].tokenBalance.Some? ==> b == users[userId].tokenBalance.value
  {
    if userId in users then users[userId].tokenBalance.GetOr(0) else 0
  }

  /**
   * The user records after a succeeded payment intent: nothing when the user id
   * or token count is missing; a new record with balance `tokens` and a one-entry
   * history for an unknown user; otherwise the balance plus `tokens` and the
   * entry added to the history. The payment id is recorded but never checked.
   */
  function UsersAfterPayment(users: map<string, UserDoc>, intent: EventObject, now: nat)
    : (r: map<string, UserDoc>)
    ensures !Truthy(MetadataOf(intent).userId) || MetadataOf(intent).tokens.None? ==> r == users
    ensures Truthy(MetadataOf(intent).userId) && MetadataOf(intent).tokens.Some? ==>
      var u := MetadataOf(intent).userId.value;
      var t := MetadataOf(intent).tokens.value;
      var entry := Purchase(now, t, intent.id, intent.amount);
      && r.Keys == users.Keys + {u}
      && (forall v :: v in users && v != u ==> r[v] == users[v])
      && (u !in users ==> r[u] == EmptyUser.(tokenBalance := Some(t), purchaseHistory := [entry]))
      && (u in users ==> r[u] == users[u].(tokenBalance := Some(BalanceOf(users, u) + t),
                                          purchaseHistory := ArrayUnion(users[u].purchaseHistory, entry)))
  {
    var md := MetadataOf(intent);
    if !Truthy(md.userId) || md.tokens.None? then users
    else
      var u := md.userId.value;
      var t := md.tokens.value;
      var entry := Purchase(now, t, intent.id, intent.amount);
      if u !in users then
        users[u := EmptyUser.(tokenBalance := Some(t), purchaseHistory := [entry])]
      else
        users[u := users[u].(tokenBalance := Some(BalanceOf(users, u) + t),
                             purchaseHistory := ArrayUnion(users[u].purchaseHistory, entry))]
  }

  /** A credited payment raises the addressed user's balance by exactly its tokens and records it. */
  lemma PaymentCredits(users: map<string, UserDoc>, intent: EventObject, now: nat)
    requires Truthy(MetadataOf(intent).userId) && MetadataOf(intent).tokens.Some?
    ensures var u := MetadataOf(intent).userId.value;
            var r := UsersAfterPayment(users, intent, now);
            BalanceOf(r, u) == BalanceOf(users, u) + MetadataOf(intent).tokens.value
            && Purchase(now, MetadataOf(intent).tokens.value, intent.id, intent.amount) in r[u].purchaseHistory
  {
  }

  /** No webhook event lowers any user's balance: there is no debit path. */
  lemma PaymentNeverDebits(users: map<string, UserDoc>, intent: EventObject, now: nat, v: string)
    ensures BalanceOf(UsersAfterPayment(users, intent, now), v) >= BalanceOf(users, v)
  {
  }

  /**
   * The same payment intent delivered twice (at two different times) is
   * credited twice, and the history then holds two entries for its payment id.
   */
  lemma RedeliveryCreditsAgain(users: map<string, UserDoc>, intent: EventObject, t1: nat, t2: nat)
    requires Truthy(MetadataOf(intent).userId) && MetadataOf(intent).tokens.Some?
    requires t1 != t2
    ensures var u := MetadataOf(intent).userId.value;
            var once := UsersAfterPayment(users, intent, t1);
            var twice := UsersAfterPayment(once, intent, t2);
            BalanceOf(twice, u) == BalanceOf(users, u) + 2 * MetadataOf(intent).tokens.value
            && Purchase(t1, MetadataOf(intent).tokens.value, intent.id, intent.amount) in twice[u].purchaseHistory
            && Purchase(t2, MetadataOf(intent).tokens.value, intent.id, intent.amount) in twice[u].purchaseHistory
  {
    var u := MetadataOf(intent).userId.value;
    var once := UsersAfterPayment(users, intent, t1);
    var e1 := Purchase(t1, MetadataOf(intent).tokens.value, intent.id, intent.amount);
    assert e1 in once[u].purchaseHistory;
  }

  /** The user records after a sequence of succeeded payment intents, the i-th at `times[i]`. */
  function UsersAfterPayments(users: map<string, UserDoc>, intents: seq<EventObject>, times: seq<nat>)
    : map<string, UserDoc>
    requires |intents| == |times|
    decreases |intents|
  {
    if intents == [] then users
    else UsersAfterPayments(UsersAfterPayment(users, intents[0], times[0]), intents[1..], times[1..])
  }

  /** The tokens all of the intents carry. */
  function TokensOf(intents: seq<EventObject>): nat
    decreases |intents|
  {
    if intents == [] then 0 else MetadataOf(intents[0]).tokens.GetOr(0) + TokensOf(intents[1..])
  }

  /**
   * Payments addressed to one user add up: the balance afterwards is the
   * balance before plus all their tokens, whatever the times and payment ids.
   */
  lemma {:induction false} PaymentsAccumulate(users: map<string, UserDoc>, u: string,
                                              intents: seq<EventObject>, times: seq<nat>)
    requires |intents| == |times|
    requires u != ""
    requires forall i :: 0 <= i < |intents| ==> MetadataOf(intents[i]).userId == Some(u)
    ensures BalanceOf(UsersAfterPayments(users, intents, times), u) == BalanceOf(users, u) + TokensOf(intents)
    decreases |intents|
  {
    if intents != [] {
      assert MetadataOf(intents[0]).userId == Some(u);
      var next := UsersAfterPayment(users, intents[0], times[0]);
      assert BalanceOf(next, u) == BalanceOf(users, u) + MetadataOf(intents[0]).tokens.GetOr(0);
      PaymentsAccumulate(next, u, intents[1..], times[1..]);
    }
  }

  /**
   * A charge's payment intent, once its success event arrives, credits the
   * charging user with floor(amount / 10) tokens.
   */
  lemma ChargeThenWebhookCredits(users: map<string, UserDoc>, pi: PaymentIntent, now: nat)
    requires pi.metadata.userId.Some? && pi.metadata.userId.value != ""
    requires pi.metadata.tokens == Some(TokensForAmount(pi.amount))
    ensures var u := pi.metadata.userId.value;
            BalanceOf(UsersAfterPayment(users, EventObject(pi.id, pi.amount, Some(pi.metadata)), now), u)
            == BalanceOf(users, u) + pi.amount / 10
  {
  }

  /** `handleSuccessfulSetup`. */
  method HandleSuccessfulSetup(db: Database, session: EventObject, now: nat) returns (r: Outcome)
    modifies db
    ensures UsersAfterSetup(old(db.users), session, now).Ok? ==>
      r == Pass && db.users == UsersAfterSetup(old(db.users), session, now).value
    ensures UsersAfterSetup(old(db.users), session, now).Err? ==> r == Fail(NotFound) && db.users == old(db.users)
    ensures db.threads == old(db.threads)
  {
    var md := MetadataOf(session);
    if !Truthy(md.userId) {
      return Pass;
    }
    var userId := md.userId.value;
    if userId !in db.users {
      return Fail(NotFound);
    }
    db.users := db.users[userId := db.users[userId].(hasPaymentMethod := Some(true), paymentMethodSetupDate := Some(now))];
    r := Pass;
  }

  /** `handleSuccessfulPayment`: read the user record, then create or update it in one step. */
  method HandleSuccessfulPayment(db: Database, intent: EventObject, now: nat)
    modifies db
    ensures db.users == UsersAfterPayment(old(db.users), intent, now)
    ensures db.threads == old(db.threads)
  {
    var md := MetadataOf(intent);
    if !Truthy(md.userId) || md.tokens.None? {
      return;
    }
    var userId := md.userId.value;
    var tokens := md.tokens.value;
    var entry := Purchase(now, tokens, intent.id, intent.amount);
    if userId !in db.users {
      db.users := db.users[userId := EmptyUser.(tokenBalance := Some(tokens), purchaseHistory := [entry])];
    } else {
      var userData := db.users[userId];
      var currentBalance := userData.tokenBalance.GetOr(0);
      db.users := db.users[userId := userData.(tokenBalance := Some(currentBalance + tokens),
                                               purchaseHistory := ArrayUnion(userData.purchaseHistory, entry))];
    }
  }

  /** `handleWebhookEvent`: dispatch on the event type; other types change nothing. */
  method HandleWebhookEvent(db: Database, event: Event, now: nat) returns (r: Outcome)
    modifies db
    ensures Route(event.eventType) == SetupHandler ==>
      match UsersAfterSetup(old(db.users), event.data, now)
      case Ok(users) => r == Pass && db.users == users
      case Err(e) => r == Fail(e) && db.users == old(db.users)
    ensures Route(event.eventType) == PaymentHandler ==>
      r == Pass && db.users == UsersAfterPayment(old(db.users), event.data, now)
    ensures Route(event.eventType) == Unhandled ==> r == Pass && db.users == old(db.users)
    ensures db.threads == old(db.threads)
  {
    match Route(event.eventType)
    case SetupHandler =>
      r := HandleSuccessfulSetup(db, event.data, now);
    case PaymentHandler =>
      HandleSuccessfulPayment(db, event.data, now);
      r := Pass;
    case Unhandled =>
      r := Pass;
  }
}
