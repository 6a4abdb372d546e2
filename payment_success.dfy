/**
 * The page Stripe's hosted checkout returns to (client/app/payment/success/page.tsx):
 * its effect picks the id to verify and records the status the server reports;
 * its render is a chain of conditionals over the two query parameters, the
 * `verifying` flag and that status. The call to the server is a parameter.
 */
module PaymentSuccess {
  import opened Common

  /** What the page shows. */
  datatype View =
    | Verifying               // "Verifying your setup..."
    | InvalidSession          // "Invalid session", with a way back to the payment page
    | InProgress              // "still in progress"
    | Saved                   // "Thank you! Your payment method has been successfully saved."
    | NotSuccessfulWithRetry  // "not successful", with a way back to the payment page
    | NotSuccessful           // "not successful", without one

  /** `sessionId || setupIntentId`: the session id when it is truthy, otherwise the setup intent id. */
  function IdToVerify(sessionId: Option<string>, setupIntentId: Option<string>): (r: Option<string>)
    ensures Truthy(sessionId) ==> r == sessionId
    ensures !Truthy(sessionId) ==> r == setupIntentId
    ensures Truthy(r) <==> Truthy(sessionId) || Truthy(setupIntentId)
  {
    if Truthy(sessionId) then sessionId else setupIntentId
  }

  /**
   * The render chain, branch by branch as written. The test after "open" is
   * `status === "complete" || status !== "expired"`, which holds for every
   * status except "expired"; so the branch for "expired" or "requires_action"
   * is reached by "expired" alone and the last branch never.
   */
  function ViewFor(sessionId: Option<string>, setupIntentId: Option<string>, verifying: bool, status: Option<string>)
    : (v: View)
    ensures verifying ==> v == Verifying
    ensures !verifying && !Truthy(sessionId) && !Truthy(setupIntentId) ==> v == InvalidSession
    ensures v == InProgress <==>
      !verifying && (Truthy(sessionId) || Truthy(setupIntentId)) && status == Some("open")
    ensures v == Saved <==>
      !verifying && (Truthy(sessionId) || Truthy(setupIntentId)) && status != Some("open") && status != Some("expired")
    ensures v == NotSuccessfulWithRetry <==>
      !verifying && (Truthy(sessionId) || Truthy(setupIntentId)) && status == Some("expired")
    ensures v != NotSuccessful
  {
    if verifying then Verifying
    else if !Truthy(sessionId) && !Truthy(setupIntentId) then InvalidSession
    else if status == Some("open") then InProgress
    else if status == Some("complete") || status != Some("expired") then Saved
    else if status == Some("expired") || status == Some("requires_action") then NotSuccessfulWithRetry
    else NotSuccessful
  }

  /** A status the server has no branch for, such as "requires_action" or "unknown", reads as success. */
  lemma UnlistedStatusReadsAsSaved(sessionId: Option<string>, setupIntentId: Option<string>, status: string)
    requires Truthy(sessionId) || Truthy(setupIntentId)
    requires status != "open" && status != "expired"
    ensures ViewFor(sessionId, setupIntentId, false, Some(status)) == Saved
  {
  }

  class PaymentSuccessPage {
    /** The `session_id` query parameter (null when absent). */
    const sessionId: Option<string>
    /** The `setup_intent` query parameter (null when absent). */
    const setupIntentId: Option<string>
    var verifying: bool
    var status: Option<string>

    /** The page as first rendered: verifying, no status yet. */
    constructor(sessionId: Option<string>, setupIntentId: Option<string>)
      ensures this.sessionId == sessionId && this.setupIntentId == setupIntentId
      ensures verifying && status == None
    {
      this.sessionId := sessionId;
      this.setupIntentId := setupIntentId;
      verifying := true;
      status := None;
    }

    /**
     * The effect's `verifySession`: with neither id, stop verifying; otherwise
     * ask the server about the chosen id, record the status it reports, and
     * stop verifying whether or not the request failed (a failure keeps the
     * status as it was). The chosen id is truthy whenever one of the two is,
     * so the page's second guard against a falsy id is left out.
     */
    method VerifySession(verify: string -> Result<Option<string>>)
      modifies this
      ensures !verifying
      ensures var id := IdToVerify(sessionId, setupIntentId);
        if Truthy(id) && verify(id.value).Ok? then status == verify(id.value).value else status == old(status)
    {
      if !Truthy(sessionId) && !Truthy(setupIntentId) {
        verifying := false;
        return;
      }
      var id := IdToVerify(sessionId, setupIntentId);
      var answer := verify(id.value);
      if answer.Ok? {
        status := answer.value;
      }
      verifying := false;
    }

    /** What the page renders now. */
    function Render(): (v: View)
      reads this
      ensures verifying <==> v == Verifying
    {
      ViewFor(sessionId, setupIntentId, verifying, status)
    }
  }

  /**
   * A visit to the page from start to finish: mount, run the effect once,
   * render. A request that fails leaves the status null, and a null status
   * reads as success.
   */
  method Visit(sessionId: Option<string>, setupIntentId: Option<string>, verify: string -> Result<Option<string>>)
    returns (v: View)
    ensures !Truthy(sessionId) && !Truthy(setupIntentId) ==> v == InvalidSession
    ensures Truthy(sessionId) ==> v == ViewAfterAnswer(verify(sessionId.value))
    ensures !Truthy(sessionId) && Truthy(setupIntentId) ==> v == ViewAfterAnswer(verify(setupIntentId.value))
  {
    var page := new PaymentSuccessPage(sessionId, setupIntentId);
    page.VerifySession(verify);
    v := page.Render();
  }

  /** The view a visit ends on, given the server's answer for the chosen id. */
  function ViewAfterAnswer(answer: Result<Option<string>>): (v: View)
    ensures answer.Err? ==> v == Saved
    ensures v == InProgress <==> answer == Ok(Some("open"))
    ensures v == NotSuccessfulWithRetry <==> answer == Ok(Some("expired"))
    ensures v == Saved || v == InProgress || v == NotSuccessfulWithRetry
  {
    match answer
    case Err(_) => Saved
    case Ok(Some("open")) => InProgress
    case Ok(Some("expired")) => NotSuccessfulWithRetry
    case Ok(_) => Saved
  }
}
