/** `Array.prototype.join` and friends, over sequences of any element type:
    a join of strings and the list of paragraphs with a spacer between
    entries are the same construction. */
module Seqs {

  /** The parts in order with `sep` between each two neighbours. */
  function Join<T>(parts: seq<seq<T>>, sep: seq<T>): seq<T>
  {
    if parts == [] then []
    else if |parts| == 1 then parts[0]
    else Join(parts[..|parts| - 1], sep) + sep + parts[|parts| - 1]
  }

  /** The sum of the lengths of the parts. */
  function TotalLength<T>(parts: seq<seq<T>>): nat
  {
    if parts == [] then 0 else TotalLength(parts[..|parts| - 1]) + |parts[|parts| - 1]|
  }

  /** Joining two non-empty lists is joining each and putting one
      separator between them. */
  lemma {:induction false} JoinAppend<T>(xs: seq<seq<T>>, ys: seq<seq<T>>, sep: seq<T>)
    requires xs != [] && ys != []
    ensures Join(xs + ys, sep) == Join(xs, sep) + sep + Join(ys, sep)
  {
    var zs := xs + ys;
    if |ys| == 1 {
      assert zs[..|zs| - 1] == xs;
    } else {
      var ys' := ys[..|ys| - 1];
      var last := ys[|ys| - 1];
      assert zs[..|zs| - 1] == xs + ys';
      assert zs[|zs| - 1] == last;
      calc {
        Join(zs, sep);
        Join(xs + ys', sep) + sep + last;
        { JoinAppend(xs, ys', sep); }
        Join(xs, sep) + sep + Join(ys', sep) + sep + last;
        { Regroup5(Join(xs, sep), sep, Join(ys', sep), sep, last); }
        Join(xs, sep) + sep + (Join(ys', sep) + sep + last);
        Join(xs, sep) + sep + Join(ys, sep);
      }
    }
  }

  /** Cutting the list anywhere inside it shows one separator at the cut:
      the join is the join of the parts before, `sep`, and the join of
      the parts after. */
  lemma JoinSplit<T>(parts: seq<seq<T>>, k: nat, sep: seq<T>)
    requires 0 < k < |parts|
    ensures Join(parts, sep) == Join(parts[..k], sep) + sep + Join(parts[k..], sep)
  {
    assert parts[..k] + parts[k..] == parts;
    JoinAppend(parts[..k], parts[k..], sep);
  }

  /** One more part of a join: the separator (after the first part) and
      the part, which is how a loop pushing the parts builds the join. */
  lemma JoinStep<T>(parts: seq<seq<T>>, i: nat, sep: seq<T>)
    requires i < |parts|
    ensures Join(parts[..i + 1], sep) == Join(parts[..i], sep) + (if i > 0 then sep else []) + parts[i]
  {
    var p := parts[..i + 1];
    assert p[..|p| - 1] == parts[..i];
    if i == 0 {
      assert parts[..0] == [];
    }
  }

  lemma Regroup5<T>(a: seq<T>, b: seq<T>, c: seq<T>, d: seq<T>, e: seq<T>)
    ensures a + b + c + d + e == a + b + (c + d + e)
  {
  }

  /** The join opens with the first part: nothing is put before it. */
  lemma {:induction false} JoinFirst<T>(parts: seq<seq<T>>, sep: seq<T>)
    requires parts != []
    ensures |parts[0]| <= |Join(parts, sep)|
    ensures Join(parts, sep)[..|parts[0]|] == parts[0]
  {
    if |parts| > 1 {
      var init := parts[..|parts| - 1];
      JoinFirst(init, sep);
      assert init[0] == parts[0];
      var j := Join(init, sep);
      assert Join(parts, sep)[..|j|] == j;
    }
  }

  /** n parts give the parts' lengths plus n - 1 separators. */
  lemma {:induction false} JoinLength<T>(parts: seq<seq<T>>, sep: seq<T>)
    requires parts != []
    ensures |Join(parts, sep)| == TotalLength(parts) + (|parts| - 1) * |sep|
  {
    var n := |parts|;
    if n > 1 {
      var init := parts[..n - 1];
      JoinLength(init, sep);
      assert (n - 1) * |sep| == (n - 2) * |sep| + |sep|;
    } else {
      assert parts[..0] == [];
    }
  }

  /** A one-element separator that occurs in no part occurs exactly
      n - 1 times in the join of n parts. */
  lemma {:induction false} JoinSeparatorCount<T>(parts: seq<seq<T>>, x: T)
    requires parts != []
    requires forall i :: 0 <= i < |parts| ==> x !in parts[i]
    ensures multiset(Join(parts, [x]))[x] == |parts| - 1
  {
    if |parts| == 1 {
      assert x !in parts[0];
    } else {
      var init := parts[..|parts| - 1];
      JoinSeparatorCount(init, x);
      var last := parts[|parts| - 1];
      assert x !in last;
      assert multiset(Join(parts, [x])) == multiset(Join(init, [x])) + multiset([x]) + multiset(last);
    }
  }

  /** Whatever holds of every separator element and every element of
      every part holds of every element of the join. */
  lemma {:induction false} JoinAll<T>(parts: seq<seq<T>>, sep: seq<T>, P: T -> bool)
    requires forall x :: x in sep ==> P(x)
    requires forall i :: 0 <= i < |parts| ==> forall x :: x in parts[i] ==> P(x)
    ensures forall x :: x in Join(parts, sep) ==> P(x)
  {
    if |parts| > 1 {
      var init := parts[..|parts| - 1];
      JoinAll(init, sep, P);
      assert forall x :: x in parts[|parts| - 1] ==> P(x);
    }
  }

  /** Regrouping a concatenation of six pieces after the first. */
  lemma Regroup<T>(a: seq<T>, b: seq<T>, c: seq<T>, d: seq<T>, e: seq<T>, f: seq<T>)
    ensures a + b + c + d + e + f == a + (b + c + d + e + f)
  {
  }
}
