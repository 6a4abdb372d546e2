/**
 * Token-usage counters of a chat thread and the component-wise addition that
 * both the server's `updateUsage` and the web app's `storeUsage` apply to them.
 * The counters are JavaScript numbers, modelled as unbounded integers.
 */
module Usage {
  import opened Common

  datatype TokenUsage = TokenUsage(promptTokens: int, completionTokens: int, totalTokens: int)

  /** The counters a new thread starts with. */
  const Zero := TokenUsage(0, 0, 0)

  /** The stored `tokenUsage`, or all zeros when the document has none. */
  function OrZero(stored: Option<TokenUsage>): (u: TokenUsage)
    ensures stored.None? ==> u == Zero
    ensures stored.Some? ==> u == stored.value
  {
    stored.GetOr(Zero)
  }

  /** The counters after a generation's usage `delta` is added to `current`. */
  function Add(current: TokenUsage, delta: TokenUsage): (r: TokenUsage)
    ensures Consistent(current) && Consistent(delta) ==> Consistent(r)
    ensures NonNegative(delta) ==> AtMost(current, r)
  {
    TokenUsage(current.promptTokens + delta.promptTokens,
               current.completionTokens + delta.completionTokens,
               current.totalTokens + delta.totalTokens)
  }

  /** The total is the sum of the prompt and completion counts. */
  predicate Consistent(u: TokenUsage) {
    u.totalTokens == u.promptTokens + u.completionTokens
  }

  predicate NonNegative(u: TokenUsage) {
    u.promptTokens >= 0 && u.completionTokens >= 0 && u.totalTokens >= 0
  }

  /** No counter of `a` exceeds the corresponding counter of `b`. */
  predicate AtMost(a: TokenUsage, b: TokenUsage) {
    a.promptTokens <= b.promptTokens && a.completionTokens <= b.completionTokens
    && a.totalTokens <= b.totalTokens
  }

  /** The counters after each delta of `deltas` is added in turn. */
  function ApplyAll(u: TokenUsage, deltas: seq<TokenUsage>): TokenUsage
    decreases |deltas|
  {
    if deltas == [] then u else ApplyAll(Add(u, deltas[0]), deltas[1..])
  }

  /** The component-wise sum of all deltas. */
  function Sum(deltas: seq<TokenUsage>): TokenUsage
    decreases |deltas|
  {
    if deltas == [] then Zero else Add(deltas[0], Sum(deltas[1..]))
  }

  /** Two deltas applied one after the other equal their sum applied once. */
  lemma AddTwice(u: TokenUsage, d1: TokenUsage, d2: TokenUsage)
    ensures Add(Add(u, d1), d2) == Add(u, Add(d1, d2))
  {
  }

  /** Starting at zero, {10,5,15} and then {3,1,4} give {13,6,19}. */
  lemma AddExample()
    ensures Add(Add(Zero, TokenUsage(10, 5, 15)), TokenUsage(3, 1, 4)) == TokenUsage(13, 6, 19)
  {
  }

  /** Applying a whole sequence of deltas is the same as adding their sum once. */
  lemma {:induction false} ApplyAllIsSum(u: TokenUsage, deltas: seq<TokenUsage>)
    ensures ApplyAll(u, deltas) == Add(u, Sum(deltas))
    decreases |deltas|
  {
    if deltas != [] {
      ApplyAllIsSum(Add(u, deltas[0]), deltas[1..]);
      AddTwice(u, deltas[0], Sum(deltas[1..]));
    }
  }

  /** Appending deltas: the updates compose. */
  lemma {:induction false} ApplyAllAppend(u: TokenUsage, ds1: seq<TokenUsage>, ds2: seq<TokenUsage>)
    ensures ApplyAll(u, ds1 + ds2) == ApplyAll(ApplyAll(u, ds1), ds2)
    decreases |ds1|
  {
    if ds1 != [] {
      assert (ds1 + ds2)[0] == ds1[0];
      assert (ds1 + ds2)[1..] == ds1[1..] + ds2;
      ApplyAllAppend(Add(u, ds1[0]), ds1[1..], ds2);
    } else {
      assert ds1 + ds2 == ds2;
    }
  }

  /** If the stored counters and every delta are consistent, so is the result. */
  lemma {:induction false} ApplyAllConsistent(u: TokenUsage, deltas: seq<TokenUsage>)
    requires Consistent(u)
    requires forall i :: 0 <= i < |deltas| ==> Consistent(deltas[i])
    ensures Consistent(ApplyAll(u, deltas))
    decreases |deltas|
  {
    if deltas != [] {
      assert Consistent(deltas[0]);
      ApplyAllConsistent(Add(u, deltas[0]), deltas[1..]);
    }
  }

  /** With non-negative deltas no counter ever decreases. */
  lemma {:induction false} ApplyAllMonotone(u: TokenUsage, deltas: seq<TokenUsage>)
    requires forall i :: 0 <= i < |deltas| ==> NonNegative(deltas[i])
    ensures AtMost(u, ApplyAll(u, deltas))
    decreases |deltas|
  {
    if deltas != [] {
      assert NonNegative(deltas[0]);
      ApplyAllMonotone(Add(u, deltas[0]), deltas[1..]);
    }
  }
}
