/** The building blocks of the hand-written regular-expression scanners:
    the greedy run of a character class, and the first and the last
    position that satisfies a condition. Each comes with the lemma that
    its result is the only one meeting its specification, which is how a
    scanner is shown to agree with the pattern it stands for. */
module Scan {
  import opened Wrappers
  import opened JsText

  /** The length of the longest run of units satisfying `P` from `from`
      (a greedy `P*`). What the run is made of is stated by SpanRun. */
  function Span(s: JsString, from: nat, P: CodeUnit -> bool): (n: nat)
    requires from <= |s|
    ensures from + n <= |s|
    decreases |s| - from
  {
    if from == |s| || !P(s[from]) then 0 else 1 + Span(s, from + 1, P)
  }

  /** The greedy run: every unit in it satisfies `P`, and the unit after
      it, if any, does not. */
  lemma {:induction false} SpanRun(s: JsString, from: nat, P: CodeUnit -> bool)
    requires from <= |s|
    ensures forall t :: from <= t < from + Span(s, from, P) ==> P(s[t])
    ensures from + Span(s, from, P) < |s| ==> !P(s[from + Span(s, from, P)])
    decreases |s| - from
  {
    if from < |s| && P(s[from]) {
      SpanRun(s, from + 1, P);
    }
  }

  /** A run of `P` that cannot be extended is the greedy one. */
  lemma SpanUnique(s: JsString, from: nat, m: nat, P: CodeUnit -> bool)
    requires from + m <= |s|
    requires forall t :: from <= t < from + m ==> P(s[t])
    requires from + m == |s| || !P(s[from + m])
    ensures Span(s, from, P) == m
  {
    SpanRun(s, from, P);
  }

  /** A run of `P` up to `x` lies inside the greedy run. */
  lemma SpanCovers(s: JsString, from: nat, x: nat, P: CodeUnit -> bool)
    requires from <= x <= |s|
    requires forall t :: from <= t < x ==> P(s[t])
    ensures x <= from + Span(s, from, P)
  {
    SpanRun(s, from, P);
  }

  /** The least position in [from, bound) satisfying `ok`, or `bound`.
      What it finds is stated by FirstFound. */
  function FirstWhere(ok: nat -> bool, from: nat, bound: nat): (r: nat)
    requires from <= bound
    ensures from <= r <= bound
    decreases bound - from
  {
    if from == bound then bound else if ok(from) then from else FirstWhere(ok, from + 1, bound)
  }

  /** The position found satisfies `ok` (unless it is `bound`) and none
      before it does. */
  lemma {:induction false} FirstFound(ok: nat -> bool, from: nat, bound: nat)
    requires from <= bound
    ensures FirstWhere(ok, from, bound) < bound ==> ok(FirstWhere(ok, from, bound))
    ensures forall q :: from <= q < FirstWhere(ok, from, bound) ==> !ok(q)
    decreases bound - from
  {
    if from < bound && !ok(from) {
      FirstFound(ok, from + 1, bound);
    }
  }

  /** A position that satisfies `ok` with none before it is the one found. */
  lemma FirstUnique(ok: nat -> bool, from: nat, bound: nat, r: nat)
    requires from <= r <= bound
    requires r < bound ==> ok(r)
    requires forall q :: from <= q < r ==> !ok(q)
    ensures FirstWhere(ok, from, bound) == r
  {
    FirstFound(ok, from, bound);
  }

  /** The greatest position in [lo, hi) satisfying `ok`, if any (what a
      greedy quantifier settles on after backtracking). What it finds is
      stated by LastFound. */
  function Last(ok: nat -> bool, lo: nat, hi: nat): (r: Option<nat>)
    ensures r.Some? ==> lo <= r.value < hi
    decreases hi
  {
    if hi <= lo then None else if ok(hi - 1) then Some(hi - 1) else Last(ok, lo, hi - 1)
  }

  /** The position found satisfies `ok` and none after it does; when there
      is none, no position of [lo, hi) satisfies `ok`. */
  lemma {:induction false} LastFound(ok: nat -> bool, lo: nat, hi: nat)
    ensures var r := Last(ok, lo, hi);
      && (r.Some? ==> ok(r.value) && forall k :: r.value < k < hi ==> !ok(k))
      && (r.None? ==> forall k :: lo <= k < hi ==> !ok(k))
    decreases hi
  {
    if lo < hi && !ok(hi - 1) {
      LastFound(ok, lo, hi - 1);
    }
  }

  /** A position that satisfies `ok` with none after it is the one found. */
  lemma LastUnique(ok: nat -> bool, lo: nat, hi: nat, k: nat)
    requires lo <= k < hi && ok(k)
    requires forall k' :: k < k' < hi ==> !ok(k')
    ensures Last(ok, lo, hi) == Some(k)
  {
    LastFound(ok, lo, hi);
  }
}
