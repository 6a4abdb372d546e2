/**
 * The server's document store as the chat backend sees it: the `users`
 * collection and each user's `threads` sub-collection, held as two maps, and
 * the thread operations of server/services/firebase/firestore.ts as methods on it.
 * Each operation runs atomically; the store's own transactions and retries
 * are not part of the model.
 */
module Firestore {
  import opened Common
  import opened Usage

  /** One entry of a user's `purchaseHistory`. */
  datatype Purchase = Purchase(date: nat, tokens: nat, paymentId: string, amount: int)

  /** A document of the `users` collection; absent fields are `None`. */
  datatype UserDoc = UserDoc(
    email: Option<string>,
    stripeCustomerId: Option<string>,
    hasPaymentMethod: Option<bool>,
    paymentMethodSetupDate: Option<nat>,
    tokenBalance: Option<int>,
    purchaseHistory: seq<Purchase>)

  /** A user document with no fields set. */
  const EmptyUser := UserDoc(None, None, None, None, None, [])

  /** The id of a stored chat message (the server stores none itself). */
  type MessageRef = string

  /** A document of `users/{userId}/threads`. */
  datatype ThreadDoc = ThreadDoc(
    createdAt: nat,
    updatedAt: nat,
    tokenUsage: Option<TokenUsage>,
    messages: seq<MessageRef>)

  /** A thread document is addressed by (user id, thread id). */
  type ThreadKey = (string, string)

  /** The document `createThread` writes. */
  function NewThreadDoc(now: nat): (d: ThreadDoc)
    ensures d.tokenUsage == Some(Zero) && d.messages == []
    ensures d.createdAt == now && d.updatedAt == now
  {
    ThreadDoc(now, now, Some(Zero), [])
  }

  /** The document after a usage write: counters added, `updatedAt` refreshed, nothing else touched. */
  function WithUsage(d: ThreadDoc, delta: TokenUsage, now: nat): (r: ThreadDoc)
    ensures r.tokenUsage == Some(Add(OrZero(d.tokenUsage), delta))
    ensures r.updatedAt == now
    ensures r.createdAt == d.createdAt && r.messages == d.messages
  {
    d.(tokenUsage := Some(Add(OrZero(d.tokenUsage), delta)), updatedAt := now)
  }

  /**
   * Two usage writes to one document leave the same counters as one write of
   * the summed delta, including when the document had no counters before.
   */
  lemma WithUsageTwice(d: ThreadDoc, d1: TokenUsage, d2: TokenUsage, t1: nat, t2: nat)
    ensures WithUsage(WithUsage(d, d1, t1), d2, t2) == WithUsage(d, Add(d1, d2), t2)
  {
    AddTwice(OrZero(d.tokenUsage), d1, d2);
  }

  class Database {
    var users: map<string, UserDoc>
    var threads: map<ThreadKey, ThreadDoc>

    constructor(users: map<string, UserDoc>, threads: map<ThreadKey, ThreadDoc>)
      ensures this.users == users && this.threads == threads
    {
      this.users := users;
      this.threads := threads;
    }

    /** `getThread`: the thread document's data, or nothing when it does not exist. */
    function GetThread(userId: string, threadId: string): (r: Option<ThreadDoc>)
      reads this
      ensures r.Some? <==> (userId, threadId) in threads
      ensures r.Some? ==> r.value == threads[(userId, threadId)]
    {
      if (userId, threadId) in threads then Some(threads[(userId, threadId)]) else None
    }

    /**
     * `createThread`: writes (replacing any previous document) a thread whose
     * usage counters are all zero and whose message list is empty.
     */
    method CreateThread(threadId: string, userId: string, now: nat)
      modifies this
      ensures threads == old(threads)[(userId, threadId) := NewThreadDoc(now)]
      ensures users == old(users)
    {
      threads := threads[(userId, threadId) := NewThreadDoc(now)];
    }

    /**
     * `updateUsage`: reads the thread, adds `usage` to its counters (absent
     * counters count as zero) and writes back only `tokenUsage` and
     * `updatedAt`. The store refuses the write when the thread does not exist.
     */
    method UpdateUsage(threadId: string, userId: string, usage: TokenUsage, now: nat) returns (r: Outcome)
      modifies this
      ensures (userId, threadId) !in old(threads) ==> r == Fail(NotFound) && threads == old(threads)
      ensures (userId, threadId) in old(threads) ==>
        r == Pass && threads == old(threads)[(userId, threadId) := WithUsage(old(threads)[(userId, threadId)], usage, now)]
      ensures users == old(users)
    {
      var key := (userId, threadId);
      if key !in threads {
        return Fail(NotFound);
      }
      var currentUsage := OrZero(threads[key].tokenUsage);
      var updatedUsage := Add(currentUsage, usage);
      threads := threads[key := threads[key].(tokenUsage := Some(updatedUsage), updatedAt := now)];
      r := Pass;
    }
  }
}
