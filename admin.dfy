/**
 * The web app's server-side Firebase helpers (client/lib/firebase/admin.ts):
 * ID-token verification with a uniform error, and the additive usage write.
 * The token verifier itself is the identity provider's and is a parameter.
 */
module FirebaseAdmin {
  import opened Common
  import opened Usage
  import opened Firestore

  /** The claims of a verified ID token (only the subject is modelled). */
  datatype DecodedToken = DecodedToken(uid: string)

  /**
   * What the identity provider's verifier does with a token: it either throws
   * (for a reason the model keeps) or returns a decoded token, possibly an
   * empty (falsy) one.
   */
  datatype VerifierAnswer = Throws(reason: string) | Returns(decoded: Option<DecodedToken>)

  /**
   * `verifyIdToken`: an empty token is refused before the verifier is asked;
   * every way the verifier can fail becomes the same "Invalid token" error.
   */
  function VerifyIdToken(token: string, verifier: string -> VerifierAnswer): (r: Result<DecodedToken>)
    ensures token == "" ==> r == Err(Thrown("No token provided"))
    ensures token != "" && r.Ok? ==> verifier(token) == Returns(Some(r.value))
    ensures token != "" && !verifier(token).Returns? ==> r == Err(Thrown("Invalid token"))
    ensures token != "" && verifier(token) == Returns(None) ==> r == Err(Thrown("Invalid token"))
    ensures token != "" && verifier(token).Returns? && verifier(token).decoded.Some? ==>
      r == Ok(verifier(token).decoded.value)
  {
    if token == "" then Err(Thrown("No token provided"))
    else
      match verifier(token)
      case Returns(Some(decoded)) => Ok(decoded)
      case _ => Err(Thrown("Invalid token"))
  }

  /** An empty token is refused the same way whatever the verifier would say. */
  lemma EmptyTokenIgnoresVerifier(v1: string -> VerifierAnswer, v2: string -> VerifierAnswer)
    ensures VerifyIdToken("", v1) == VerifyIdToken("", v2) == Err(Thrown("No token provided"))
  {
  }

  /** Two verifiers that reject a token for different reasons yield the same error. */
  lemma RejectionsAreIndistinguishable(token: string, v1: string -> VerifierAnswer, v2: string -> VerifierAnswer)
    requires token != ""
    requires !(v1(token).Returns? && v1(token).decoded.Some?)
    requires !(v2(token).Returns? && v2(token).decoded.Some?)
    ensures VerifyIdToken(token, v1) == VerifyIdToken(token, v2)
    ensures VerifyIdToken(token, v1).Err?
  {
  }

  /**
   * `storeUsage`: the same read-add-write as the server's `updateUsage`, with
   * the user id first. Only `tokenUsage` and `updatedAt` of the addressed
   * thread are written.
   */
  method StoreUsage(db: Database, userId: string, threadId: string, usage: TokenUsage, now: nat)
    returns (r: Outcome)
    modifies db
    ensures (userId, threadId) !in old(db.threads) ==> r == Fail(NotFound) && db.threads == old(db.threads)
    ensures (userId, threadId) in old(db.threads) ==>
      r == Pass && db.threads == old(db.threads)[(userId, threadId) := WithUsage(old(db.threads)[(userId, threadId)], usage, now)]
    ensures db.users == old(db.users)
  {
    var key := (userId, threadId);
    if key !in db.threads {
      return Fail(NotFound);
    }
    var currentUsage := OrZero(db.threads[key].tokenUsage);
    var updatedUsage := Add(currentUsage, usage);
    db.threads := db.threads[key := db.threads[key].(tokenUsage := Some(updatedUsage), updatedAt := now)];
    r := Pass;
  }

  /**
   * The web app's `storeUsage` and the server's `updateUsage`, given the same
   * store, user, thread, delta and time, leave the same documents behind.
   */
  method StoreUsageAgreesWithUpdateUsage(a: Database, b: Database, userId: string, threadId: string,
                                         usage: TokenUsage, now: nat)
    returns (ra: Outcome, rb: Outcome)
    requires a != b && a.threads == b.threads && a.users == b.users
    modifies a, b
    ensures ra == rb && a.threads == b.threads && a.users == b.users
  {
    ra := StoreUsage(a, userId, threadId, usage, now);
    rb := b.UpdateUsage(threadId, userId, usage, now);
  }
}
