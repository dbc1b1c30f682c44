/** The leftmost position where each scanner of FreemiumPatterns succeeds:
    what `String.prototype.match` does with a pattern that has no `g` flag
    (and, for the bullets, the first element of the `g`-flag result). */
module FreemiumSearch {
  import opened Wrappers
  import opened JsText
  import opened Scan
  import opened FreemiumPatterns

  /** The first position of `s` where the score scanner succeeds, or
      |s| + 1. */
  function FirstScore(s: JsString): (p: nat)
    ensures p <= |s| + 1
  {
    FirstWhere((q: nat) => ScoreAt(s, q).Some?, 0, |s| + 1)
  }

  lemma FirstScoreFound(s: JsString)
    ensures FirstScore(s) <= |s| ==> ScoreAt(s, FirstScore(s)).Some?
    ensures forall q: nat :: q < FirstScore(s) ==> ScoreAt(s, q).None?
  {
    var ok := (q: nat) => ScoreAt(s, q).Some?;
    FirstFound(ok, 0, |s| + 1);
    var r := FirstScore(s);
    assert r <= |s| ==> ok(r);
    forall t: nat | t < r ensures ScoreAt(s, t).None? {
      assert !ok(t);
    }
  }

  lemma FirstScoreUnique(s: JsString, p: nat)
    requires p <= |s| + 1
    requires p <= |s| ==> ScoreAt(s, p).Some?
    requires forall q: nat :: q < p ==> ScoreAt(s, q).None?
    ensures FirstScore(s) == p
  {
    FirstUnique((q: nat) => ScoreAt(s, q).Some?, 0, |s| + 1, p);
  }

  /** The first position where the first-impression scanner succeeds, or
      |s| + 1. */
  function FirstImpression(s: JsString): (p: nat)
    ensures p <= |s| + 1
  {
    FirstWhere((q: nat) => ImpressionLine(s, q).Some?, 0, |s| + 1)
  }

  lemma FirstImpressionFound(s: JsString)
    ensures FirstImpression(s) <= |s| ==> ImpressionLine(s, FirstImpression(s)).Some?
    ensures forall q: nat :: q < FirstImpression(s) ==> ImpressionLine(s, q).None?
  {
    var ok := (q: nat) => ImpressionLine(s, q).Some?;
    FirstFound(ok, 0, |s| + 1);
    var r := FirstImpression(s);
    assert r <= |s| ==> ok(r);
    forall t: nat | t < r ensures ImpressionLine(s, t).None? {
      assert !ok(t);
    }
  }

  lemma FirstImpressionUnique(s: JsString, p: nat)
    requires p <= |s| + 1
    requires p <= |s| ==> ImpressionLine(s, p).Some?
    requires forall q: nat :: q < p ==> ImpressionLine(s, q).None?
    ensures FirstImpression(s) == p
  {
    FirstUnique((q: nat) => ImpressionLine(s, q).Some?, 0, |s| + 1, p);
  }

  /** The first position where the reality-check scanner succeeds, or
      |s| + 1. */
  function FirstReality(s: JsString): (p: nat)
    ensures p <= |s| + 1
  {
    FirstWhere((q: nat) => RealityLine(s, q).Some?, 0, |s| + 1)
  }

  lemma FirstRealityFound(s: JsString)
    ensures FirstReality(s) <= |s| ==> RealityLine(s, FirstReality(s)).Some?
    ensures forall q: nat :: q < FirstReality(s) ==> RealityLine(s, q).None?
  {
    var ok := (q: nat) => RealityLine(s, q).Some?;
    FirstFound(ok, 0, |s| + 1);
    var r := FirstReality(s);
    assert r <= |s| ==> ok(r);
    forall t: nat | t < r ensures RealityLine(s, t).None? {
      assert !ok(t);
    }
  }

  lemma FirstRealityUnique(s: JsString, p: nat)
    requires p <= |s| + 1
    requires p <= |s| ==> RealityLine(s, p).Some?
    requires forall q: nat :: q < p ==> RealityLine(s, q).None?
    ensures FirstReality(s) == p
  {
    var ok := (q: nat) => RealityLine(s, q).Some?;
    forall q: nat | q < p ensures !ok(q) {
      assert RealityLine(s, q).None?;
    }
    FirstUnique(ok, 0, |s| + 1, p);
  }

  /** The first position of `g` where the bullet scanner succeeds, or |g|
      (a bullet needs a unit after its mark, so none starts at the end). */
  function FirstBullet(g: JsString): (i: nat)
    ensures i <= |g|
  {
    FirstWhere((i: nat) => BulletAt(g, i).Some?, 0, |g|)
  }

  lemma FirstBulletFound(g: JsString)
    ensures FirstBullet(g) < |g| ==> BulletAt(g, FirstBullet(g)).Some?
    ensures forall i: nat :: i < FirstBullet(g) ==> BulletAt(g, i).None?
  {
    var ok := (i: nat) => BulletAt(g, i).Some?;
    FirstFound(ok, 0, |g|);
    var r := FirstBullet(g);
    assert r < |g| ==> ok(r);
    forall q: nat | q < r ensures BulletAt(g, q).None? {
      assert !ok(q);
    }
  }

  lemma FirstBulletUnique(g: JsString, i: nat)
    requires i <= |g|
    requires i < |g| ==> BulletAt(g, i).Some?
    requires forall i': nat :: i' < i ==> BulletAt(g, i').None?
    ensures FirstBullet(g) == i
  {
    FirstUnique((i: nat) => BulletAt(g, i).Some?, 0, |g|, i);
  }
}
