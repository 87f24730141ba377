/** Concatenation of a list of lists, and the facts about it the validators rely on. */
module Sequences {

  /** The lists of `xss`, one after another. */
  function Flatten<T>(xss: seq<seq<T>>): seq<T>
  {
    if xss == [] then [] else Flatten(xss[..|xss| - 1]) + xss[|xss| - 1]
  }

  /** `f` applied to each element of `xs`. */
  function Map<A, B>(f: A -> B, xs: seq<A>): (r: seq<B>)
    ensures |r| == |xs| && forall k :: 0 <= k < |xs| ==> r[k] == f(xs[k])
  {
    if xs == [] then [] else Map(f, xs[..|xs| - 1]) + [f(xs[|xs| - 1])]
  }

  /** Sum of the lengths of the lists of `xss`. */
  function TotalCount<T>(xss: seq<seq<T>>): nat
  {
    if xss == [] then 0 else TotalCount(xss[..|xss| - 1]) + |xss[|xss| - 1]|
  }

  /** Sum of a list of counts. */
  function Sum(xs: seq<nat>): nat
  {
    if xs == [] then 0 else Sum(xs[..|xs| - 1]) + xs[|xs| - 1]
  }

  /** Counting the lists one by one gives the same total. */
  lemma {:induction false} TotalCountIsSum<T>(xss: seq<seq<T>>, counts: seq<nat>)
    requires |xss| == |counts|
    requires forall i :: 0 <= i < |xss| ==> |xss[i]| == counts[i]
    ensures TotalCount(xss) == Sum(counts)
  {
    if xss != [] {
      TotalCountIsSum(xss[..|xss| - 1], counts[..|counts| - 1]);
    }
  }

  lemma FlattenSnoc<T>(xss: seq<seq<T>>, xs: seq<T>)
    ensures Flatten(xss + [xs]) == Flatten(xss) + xs
  {
    assert (xss + [xs])[..|xss|] == xss;
  }

  /** One more list: what a loop that appends list `i` to an accumulator keeps. */
  lemma FlattenStep<T>(acc: seq<T>, xss: seq<seq<T>>, i: nat)
    requires i < |xss|
    ensures acc + Flatten(xss[..i]) + xss[i] == acc + Flatten(xss[..i + 1])
  {
    assert xss[..i + 1] == xss[..i] + [xss[i]];
    FlattenSnoc(xss[..i], xss[i]);
  }

  lemma {:induction false} FlattenLength<T>(xss: seq<seq<T>>)
    ensures |Flatten(xss)| == TotalCount(xss)
  {
    if xss != [] {
      FlattenLength(xss[..|xss| - 1]);
    }
  }

  /** Flattening a prefix gives a prefix: the lists keep their order. */
  lemma {:induction false} FlattenPrefix<T>(xss: seq<seq<T>>, k: nat)
    requires k <= |xss|
    ensures |Flatten(xss[..k])| <= |Flatten(xss)|
    ensures Flatten(xss)[..|Flatten(xss[..k])|] == Flatten(xss[..k])
  {
    if k < |xss| {
      var init := xss[..|xss| - 1];
      assert init[..k] == xss[..k];
      FlattenPrefix(init, k);
      var a := Flatten(init);
      assert Flatten(xss) == a + xss[|xss| - 1];
      assert Flatten(xss)[..|a|] == a;
    } else {
      assert xss[..k] == xss;
    }
  }

  /** List `i` stands, whole and unchanged, right after lists `0 .. i-1`. */
  lemma FlattenSlice<T>(xss: seq<seq<T>>, i: nat)
    requires i < |xss|
    ensures |Flatten(xss[..i])| + |xss[i]| <= |Flatten(xss)|
    ensures Flatten(xss)[|Flatten(xss[..i])|..|Flatten(xss[..i])| + |xss[i]|] == xss[i]
  {
    var pre := Flatten(xss[..i]);
    var upto := Flatten(xss[..i + 1]);
    var all := Flatten(xss);
    assert xss[..i + 1] == xss[..i] + [xss[i]];
    FlattenSnoc(xss[..i], xss[i]);
    assert upto == pre + xss[i];
    FlattenPrefix(xss, i + 1);
    assert all[..|upto|] == upto;
    assert all[|pre|..|pre| + |xss[i]|] == all[..|upto|][|pre|..];
  }

  /** Every element of every list is in the flattening. */
  lemma FlattenContains<T>(xss: seq<seq<T>>, i: nat)
    requires i < |xss|
    ensures forall x :: x in xss[i] ==> x in Flatten(xss)
  {
    FlattenSlice(xss, i);
    var pre := |Flatten(xss[..i])|;
    forall x | x in xss[i] ensures x in Flatten(xss) {
      var k :| 0 <= k < |xss[i]| && xss[i][k] == x;
      assert Flatten(xss)[pre..pre + |xss[i]|][k] == x;
    }
  }

  /** Every element of the flattening comes from one of the lists. */
  lemma {:induction false} FlattenOrigin<T>(xss: seq<seq<T>>, x: T)
    requires x in Flatten(xss)
    ensures exists i :: 0 <= i < |xss| && x in xss[i]
  {
    var init := xss[..|xss| - 1];
    if x !in xss[|xss| - 1] {
      FlattenOrigin(init, x);
      var i :| 0 <= i < |init| && x in init[i];
      assert xss[i] == init[i];
    }
  }

  /** The flattening is empty exactly when every list is. */
  lemma FlattenEmpty<T>(xss: seq<seq<T>>)
    ensures Flatten(xss) == [] <==> forall i :: 0 <= i < |xss| ==> xss[i] == []
  {
    if Flatten(xss) == [] {
      forall i | 0 <= i < |xss| ensures xss[i] == [] {
        FlattenSlice(xss, i);
      }
    } else {
      FlattenOrigin(xss, Flatten(xss)[0]);
    }
  }
}
