/**
 * The browser's payment helpers (client/lib/stripe/index.ts). Each helper
 * needs a signed-in user, sends one request to the web server with the user's
 * ID token, checks the response and either throws an `Error` or finishes
 * (`createIntentSession` by sending the browser to the checkout page). The
 * signed-in user, the address bar and the requests sent are fields of
 * `Browser`; the web server is a function from request to response.
 */
module StripeClient {
  import opened Common

  /** The requests the helpers send, each carrying the user's ID token. */
  datatype Request =
    | CreateSessionRequest(idToken: string)                                  // POST /api/payment/create-intent-session
    | VerifyRequest(idToken: string, queryParam: string, id: string)         // GET /api/payment/verify-intent?<queryParam>=<id>
    | ChargeRequest(idToken: string, amount: int)                            // POST /api/payment/charge

  /** The `intent` member of the create-session response. */
  datatype IntentBody = IntentBody(url: Option<string>)

  /**
   * An HTTP response: `ok` and the members of its JSON body that the helpers
   * read; an absent member is `None` (or `false` for `success`).
   */
  datatype Response = Response(
    ok: bool,
    error: Option<string>,
    intent: Option<IntentBody>,
    status: Option<string>,
    success: bool)

  /** `errorData.error || fallback`. */
  function ErrorText(error: Option<string>, fallback: string): (r: string)
    ensures Truthy(error) ==> r == error.value
    ensures !Truthy(error) ==> r == fallback
    ensures fallback != "" ==> r != ""
  {
    if Truthy(error) then error.value else fallback
  }

  /** The query parameter that carries the id: "sessionId" for checkout sessions (`cs_…`), "intentId" otherwise. */
  function QueryParam(id: string): (r: string)
    ensures r == "sessionId" <==> StartsWith(id, "cs_")
    ensures r == "intentId" <==> !StartsWith(id, "cs_")
  {
    if StartsWith(id, "cs_") then "sessionId" else "intentId"
  }

  /** A checkout session id and a setup intent id are sent under different names. */
  lemma QueryParamExamples()
    ensures QueryParam("cs_test_a1") == "sessionId"
    ensures QueryParam("seti_1Nx") == "intentId"
    ensures QueryParam("cs") == "intentId"
  {
    assert "cs_test_a1"[..3] == "cs_";
    assert "seti_1Nx"[..3] != "cs_" by { assert "seti_1Nx"[0] == 's' && "seti_1Nx"[1] != 's'; }
  }

  /** How `createIntentSession` reads the server's answer: the address to go to, or the error it throws. */
  function SessionResult(resp: Response): (r: Result<string>)
    ensures r.Ok? <==> resp.ok && resp.intent.Some? && Truthy(resp.intent.value.url)
    ensures r.Ok? ==> r.value == resp.intent.value.url.value
    ensures !resp.ok ==> r == Err(Thrown(ErrorText(resp.error, "Failed to create checkout session")))
    ensures resp.ok && r.Err? ==> r == Err(Thrown("Invalid checkout session response from server"))
  {
    if !resp.ok then Err(Thrown(ErrorText(resp.error, "Failed to create checkout session")))
    else if resp.intent.Some? && Truthy(resp.intent.value.url) then Ok(resp.intent.value.url.value)
    else Err(Thrown("Invalid checkout session response from server"))
  }

  /**
   * How `verifyIntentSession` reads the server's answer: the body's `status`
   * (possibly absent), or a fixed error that ignores what the server said.
   */
  function VerifyResult(resp: Response): (r: Result<Option<string>>)
    ensures r.Ok? <==> resp.ok
    ensures r.Ok? ==> r.value == resp.status
    ensures r.Err? ==> r.error == Thrown("Failed to verify payment")
  {
    if !resp.ok then Err(Thrown("Failed to verify payment")) else Ok(resp.status)
  }

  /** How `purchaseTokens` reads the server's answer. */
  function PurchaseResult(resp: Response): (r: Outcome)
    ensures r == Pass <==> resp.ok && resp.success
    ensures !resp.ok ==> r == Fail(Thrown(ErrorText(resp.error, "Failed to process payment")))
    ensures resp.ok && !resp.success ==> r == Fail(Thrown("Payment failed"))
  {
    if !resp.ok then Fail(Thrown(ErrorText(resp.error, "Failed to process payment")))
    else if !resp.success then Fail(Thrown("Payment failed"))
    else Pass
  }

  /** Every error these helpers throw carries a non-empty message, whatever the server answers. */
  lemma ThrownMessagesAreNonEmpty(resp: Response)
    ensures SessionResult(resp).Err? ==> SessionResult(resp).error.Thrown? && SessionResult(resp).error.message != ""
    ensures VerifyResult(resp).Err? ==> VerifyResult(resp).error.Thrown? && VerifyResult(resp).error.message != ""
    ensures PurchaseResult(resp).Fail? ==> PurchaseResult(resp).error.Thrown? && PurchaseResult(resp).error.message != ""
  {
  }

  /** The browser globals the helpers use. */
  class Browser {
    /** The signed-in user's ID token (`auth.currentUser`), `None` when nobody is signed in. */
    var currentUser: Option<string>
    /** `window.location.href`. */
    var href: string
    /** The requests sent so far, oldest first. */
    var sent: seq<Request>

    constructor(currentUser: Option<string>, href: string)
      ensures this.currentUser == currentUser && this.href == href && sent == []
    {
      this.currentUser := currentUser;
      this.href := href;
      sent := [];
    }
  }

  const NotAuthenticated := Thrown("User not authenticated")

  /**
   * `createIntentSession`: without a user, throws before sending anything;
   * otherwise sends one request and, when the answer carries a checkout
   * address, goes there. The address bar changes only on success.
   */
  method CreateIntentSession(b: Browser, server: Request -> Response) returns (r: Outcome)
    modifies b
    ensures b.currentUser == old(b.currentUser)
    ensures old(b.currentUser).None? ==> r == Fail(NotAuthenticated) && b.sent == old(b.sent) && b.href == old(b.href)
    ensures old(b.currentUser).Some? ==>
      var req := CreateSessionRequest(old(b.currentUser).value);
      && b.sent == old(b.sent) + [req]
      && (SessionResult(server(req)).Ok? ==> r == Pass && b.href == SessionResult(server(req)).value)
      && (SessionResult(server(req)).Err? ==> r == Fail(SessionResult(server(req)).error) && b.href == old(b.href))
  {
    if b.currentUser.None? {
      return Fail(NotAuthenticated);
    }
    var req := CreateSessionRequest(b.currentUser.value);
    b.sent := b.sent + [req];
    var response := server(req);
    var result := SessionResult(response);
    if result.Err? {
      return Fail(result.error);
    }
    b.href := result.value;
    r := Pass;
  }

  /**
   * `verifyIntentSession`: without a user, throws before sending anything;
   * otherwise asks about `id` under the query parameter its prefix selects
   * and returns the status the server reports.
   */
  method VerifyIntentSession(b: Browser, server: Request -> Response, id: string) returns (r: Result<Option<string>>)
    modifies b
    ensures b.currentUser == old(b.currentUser) && b.href == old(b.href)
    ensures old(b.currentUser).None? ==> r == Err(NotAuthenticated) && b.sent == old(b.sent)
    ensures old(b.currentUser).Some? ==>
      var req := VerifyRequest(old(b.currentUser).value, QueryParam(id), id);
      b.sent == old(b.sent) + [req] && r == VerifyResult(server(req))
  {
    if b.currentUser.None? {
      return Err(NotAuthenticated);
    }
    var req := VerifyRequest(b.currentUser.value, QueryParam(id), id);
    b.sent := b.sent + [req];
    var response := server(req);
    r := VerifyResult(response);
  }

  /**
   * `purchaseTokens`: without a user, throws before sending anything;
   * otherwise asks the server to charge `amount` to the saved card and
   * succeeds only when the answer says `success`.
   */
  method PurchaseTokens(b: Browser, server: Request -> Response, amount: int) returns (r: Outcome)
    modifies b
    ensures b.currentUser == old(b.currentUser) && b.href == old(b.href)
    ensures old(b.currentUser).None? ==> r == Fail(NotAuthenticated) && b.sent == old(b.sent)
    ensures old(b.currentUser).Some? ==>
      var req := ChargeRequest(old(b.currentUser).value, amount);
      b.sent == old(b.sent) + [req] && r == PurchaseResult(server(req))
  {
    if b.currentUser.None? {
      return Fail(NotAuthenticated);
    }
    var req := ChargeRequest(b.currentUser.value, amount);
    b.sent := b.sent + [req];
    var response := server(req);
    r := PurchaseResult(response);
  }
}
