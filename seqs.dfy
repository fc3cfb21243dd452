/** `Array.prototype.filter` over sequences, and what it means to select from a sequence. */
module Seqs {

  /** The elements of s that satisfy f, in their order in s. */
  function Filter<T(!new)>(f: T -> bool, s: seq<T>): (r: seq<T>)
    ensures |r| <= |s|
    ensures forall x :: x in r <==> x in s && f(x)
  {
    if s == [] then [] else (if f(s[0]) then [s[0]] else []) + Filter(f, s[1..])
  }

  /** r is read off s at the strictly increasing positions idx. */
  ghost predicate Selects<T>(r: seq<T>, s: seq<T>, idx: seq<int>)
  {
    |idx| == |r| &&
    (forall k :: 0 <= k < |idx| ==> 0 <= idx[k] < |s| && r[k] == s[idx[k]]) &&
    (forall k, l :: 0 <= k < l < |idx| ==> idx[k] < idx[l])
  }

  /** r is an order-preserving subsequence of s. */
  ghost predicate IsSubsequence<T>(r: seq<T>, s: seq<T>)
  {
    exists idx :: Selects(r, s, idx)
  }

  /** Every position moved one place to the right. */
  function Shift(idx: seq<int>): (r: seq<int>)
    ensures |r| == |idx|
    ensures forall k :: 0 <= k < |idx| ==> r[k] == idx[k] + 1
  {
    if idx == [] then [] else [idx[0] + 1] + Shift(idx[1..])
  }

  /** A selection from the tail of s is a selection from s at positions one further on. */
  lemma SelectsFromTail<T>(r: seq<T>, s: seq<T>, idx: seq<int>)
    requires s != [] && Selects(r, s[1..], idx)
    ensures Selects(r, s, Shift(idx))
  {
  }

  /** Prepending the head of s to a selection from its tail selects from s. */
  lemma SelectsWithHead<T>(r: seq<T>, s: seq<T>, idx: seq<int>)
    requires s != [] && Selects(r, s, idx)
    requires forall k :: 0 <= k < |idx| ==> idx[k] > 0
    ensures Selects([s[0]] + r, s, [0] + idx)
  {
  }

  /** A position is in the shifted positions exactly when its predecessor was in the original. */
  lemma ShiftMembers(idx: seq<int>, i: int)
    ensures i in Shift(idx) <==> i - 1 in idx
  {
  }

  /** Positions kept from the tail of s, shifted onto s, are the positions past the head
      whose element satisfies f. */
  lemma ShiftedPositions<T>(f: T -> bool, s: seq<T>, rest: seq<int>)
    requires s != []
    requires forall i :: 0 <= i < |s[1..]| ==> (i in rest <==> f(s[1..][i]))
    requires forall k :: 0 <= k < |rest| ==> 0 <= rest[k]
    ensures 0 !in Shift(rest)
    ensures forall i :: 0 < i < |s| ==> (i in Shift(rest) <==> f(s[i]))
  {
    forall i | 0 < i < |s| ensures i in Shift(rest) <==> f(s[i]) {
      ShiftMembers(rest, i);
      assert s[1..][i - 1] == s[i];
    }
    ShiftMembers(rest, 0);
  }

  /** Adding the head's position when the head passes, or not when it fails, gives the
      positions of s whose element satisfies f. */
  lemma HeadPosition<T>(f: T -> bool, s: seq<T>, shifted: seq<int>)
    requires s != [] && 0 !in shifted
    requires forall i :: 0 < i < |s| ==> (i in shifted <==> f(s[i]))
    ensures f(s[0]) ==> forall i :: 0 <= i < |s| ==> (i in [0] + shifted <==> f(s[i]))
    ensures !f(s[0]) ==> forall i :: 0 <= i < |s| ==> (i in shifted <==> f(s[i]))
  {
    if f(s[0]) {
      forall i | 0 <= i < |s| ensures i in [0] + shifted <==> f(s[i]) {
        assert i in [0] + shifted <==> i == 0 || i in shifted;
      }
    }
  }

  /** Filter keeps exactly the positions of s whose element satisfies f, in increasing order. */
  lemma {:induction false} FilterSelects<T(!new)>(f: T -> bool, s: seq<T>) returns (idx: seq<int>)
    ensures Selects(Filter(f, s), s, idx)
    ensures forall i :: 0 <= i < |s| ==> (i in idx <==> f(s[i]))
  {
    if s == [] {
      idx := [];
    } else {
      var tail := Filter(f, s[1..]);
      var rest := FilterSelects(f, s[1..]);
      var shifted := Shift(rest);
      SelectsFromTail(tail, s, rest);
      ShiftedPositions(f, s, rest);
      HeadPosition(f, s, shifted);
      if f(s[0]) {
        assert Filter(f, s) == [s[0]] + tail;
        SelectsWithHead(tail, s, shifted);
        idx := [0] + shifted;
      } else {
        assert Filter(f, s) == tail;
        idx := shifted;
      }
    }
  }

  /** Filter's result is an order-preserving subsequence of its input. */
  lemma FilterIsSubsequence<T(!new)>(f: T -> bool, s: seq<T>)
    ensures IsSubsequence(Filter(f, s), s)
  {
    var idx := FilterSelects(f, s);
  }

  /** When every element passes, Filter returns its input. */
  lemma {:induction false} FilterKeepsAll<T(!new)>(f: T -> bool, s: seq<T>)
    requires forall x :: x in s ==> f(x)
    ensures Filter(f, s) == s
  {
    if s != [] {
      FilterKeepsAll(f, s[1..]);
    }
  }

  /** Filtering a concatenation filters each part. */
  lemma {:induction false} FilterAppend<T(!new)>(f: T -> bool, a: seq<T>, b: seq<T>)
    ensures Filter(f, a + b) == Filter(f, a) + Filter(f, b)
  {
    if a == [] {
      assert a + b == b;
    } else {
      assert (a + b)[1..] == a[1..] + b;
      FilterAppend(f, a[1..], b);
    }
  }
}
