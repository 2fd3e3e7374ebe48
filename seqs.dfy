/**
 * Sequence vocabulary shared by the pools of the entity world and the pointer
 * arrays of the scene sketches: stable filtering (what compaction leaves),
 * counting, first occurrence, and the two in-place array algorithms the C code
 * writes out by hand (compaction with a write cursor, removal by shifting down).
 */
module Seqs {

  /** The elements of `s` that satisfy `keep`, in their original order. */
  function Filter<T>(s: seq<T>, keep: T -> bool): (r: seq<T>)
    ensures |r| <= |s|
    ensures forall k :: 0 <= k < |r| ==> keep(r[k])
    decreases |s|
  {
    if s == [] then []
    else Filter(s[..|s| - 1], keep) + (if keep(s[|s| - 1]) then [s[|s| - 1]] else [])
  }

  /** How many elements of `s` satisfy `keep`, counted from the front. */
  function Count<T>(s: seq<T>, keep: T -> bool): nat
    decreases |s|
  {
    if s == [] then 0 else (if keep(s[0]) then 1 else 0) + Count(s[1..], keep)
  }

  /** Filtering distributes over concatenation: survivors keep their relative order. */
  lemma {:induction false} FilterAppend<T>(s: seq<T>, t: seq<T>, keep: T -> bool)
    ensures Filter(s + t, keep) == Filter(s, keep) + Filter(t, keep)
    decreases |t|
  {
    if t == [] {
      assert s + t == s;
    } else {
      var t' := t[..|t| - 1];
      assert (s + t)[..|s + t| - 1] == s + t';
      assert (s + t)[|s + t| - 1] == t[|t| - 1];
      FilterAppend(s, t', keep);
    }
  }

  /** Count distributes over concatenation. */
  lemma {:induction false} CountAppend<T>(s: seq<T>, t: seq<T>, keep: T -> bool)
    ensures Count(s + t, keep) == Count(s, keep) + Count(t, keep)
    decreases |s|
  {
    if s == [] {
      assert s + t == t;
    } else {
      assert (s + t)[1..] == s[1..] + t;
      CountAppend(s[1..], t, keep);
    }
  }

  /** The filtered sequence is exactly as long as the number of kept elements. */
  lemma {:induction false} FilterLength<T>(s: seq<T>, keep: T -> bool)
    ensures |Filter(s, keep)| == Count(s, keep)
    decreases |s|
  {
    if s != [] {
      var init, last := s[..|s| - 1], s[|s| - 1];
      assert s == init + [last];
      FilterLength(init, keep);
      CountAppend(init, [last], keep);
      assert [last][1..] == [];
    }
  }

  /** An element occurs after filtering exactly when it occurred before and is kept. */
  lemma {:induction false} FilterMembers<T>(s: seq<T>, keep: T -> bool, x: T)
    ensures x in Filter(s, keep) <==> x in s && keep(x)
    decreases |s|
  {
    if s != [] {
      var init := s[..|s| - 1];
      assert s == init + [s[|s| - 1]];
      FilterMembers(init, keep, x);
    }
  }

  /** The index of the first occurrence of `x` in `s`, or |s| when there is none. */
  function IndexOf<T(==)>(s: seq<T>, x: T): (i: nat)
    ensures i <= |s|
    ensures i < |s| ==> s[i] == x
    ensures forall k :: 0 <= k < i ==> s[k] != x
    decreases |s|
  {
    if s == [] then 0 else if s[0] == x then 0 else 1 + IndexOf(s[1..], x)
  }

  /** `s` without its first occurrence of `x`; `s` itself when `x` does not occur. */
  function RemoveFirstOf<T(==)>(s: seq<T>, x: T): seq<T>
  {
    var i := IndexOf(s, x);
    if i < |s| then s[..i] + s[i + 1..] else s
  }

  /**
   * Removing the first occurrence of a present element takes out exactly one
   * copy of it and keeps the order of the rest; an absent one changes nothing.
   */
  lemma RemoveFirstOfProperties<T>(s: seq<T>, x: T)
    ensures x in s ==> |RemoveFirstOf(s, x)| == |s| - 1 && multiset(RemoveFirstOf(s, x)) + multiset{x} == multiset(s)
    ensures x in s ==> var i := IndexOf(s, x); RemoveFirstOf(s, x) == s[..i] + s[i + 1..]
    ensures x !in s ==> RemoveFirstOf(s, x) == s
  {
    var i := IndexOf(s, x);
    if i < |s| {
      assert s == s[..i] + [s[i]] + s[i + 1..];
    } else {
      assert forall k :: 0 <= k < |s| ==> s[k] != x;
    }
  }

  /**
   * Stable in-place compaction of the prefix a[..n]: the entries that satisfy
   * `keep` are copied down over the others with a write cursor, and their
   * number is returned. Slots from the new count on keep their old values.
   */
  method Compact<T>(a: array<T>, n: nat, keep: T -> bool) returns (m: nat)
    requires n <= a.Length
    modifies a
    ensures m <= n
    ensures a[..m] == Filter(old(a[..n]), keep)
    ensures a[m..] == old(a[m..])
  {
    m := 0;
    var i := 0;
    while i < n
      invariant m <= i <= n
      invariant a[..m] == Filter(old(a[..i]), keep)
      invariant forall k :: m <= k < a.Length ==> a[k] == old(a[k])
    {
      ghost var before := old(a[..i + 1]);
      assert before[..i] == old(a[..i]);
      assert a[i] == old(a[i]);
      if keep(a[i]) {
        if i != m {
          a[m] := a[i];
        }
        m := m + 1;
      }
      i := i + 1;
    }
    assert old(a[..i]) == old(a[..n]);
  }

  /**
   * The shift loop of a removal: a[j] takes the value of a[j + 1] for every j
   * from `i` up to n - 2; the rest of the array is untouched.
   */
  method ShiftDown<T>(a: array<T>, i: nat, n: nat)
    requires i < n <= a.Length
    modifies a
    ensures forall k :: 0 <= k < i ==> a[k] == old(a[k])
    ensures forall k :: i <= k < n - 1 ==> a[k] == old(a[k + 1])
    ensures forall k :: n - 1 <= k < a.Length ==> a[k] == old(a[k])
  {
    var j := i;
    while j < n - 1
      invariant i <= j <= n - 1
      invariant forall k :: 0 <= k < i ==> a[k] == old(a[k])
      invariant forall k :: i <= k < j ==> a[k] == old(a[k + 1])
      invariant forall k :: j <= k < a.Length ==> a[k] == old(a[k])
    {
      a[j] := a[j + 1];
      j := j + 1;
    }
  }

  /**
   * Removes the first occurrence of `x` from the prefix a[..n] by shifting the
   * later entries down one place. The last slot of the old prefix is left as it
   * was, as the C loops leave it.
   */
  method RemoveFirst<T(==)>(a: array<T>, n: nat, x: T) returns (found: bool)
    requires n <= a.Length
    modifies a
    ensures found <==> x in old(a[..n])
    ensures found ==> a[..n - 1] == RemoveFirstOf(old(a[..n]), x) && a[n - 1..] == old(a[n - 1..])
    ensures !found ==> a[..] == old(a[..])
  {
    var i := 0;
    while i < n
      invariant i <= n
      invariant forall k :: 0 <= k < i ==> a[k] != x
    {
      if a[i] == x {
        ghost var s := a[..n];
        assert IndexOf(s, x) == i;
        ShiftDown(a, i, n);
        assert a[..n - 1] == s[..i] + s[i + 1..];
        assert a[n - 1..] == old(a[n - 1..]);
        return true;
      }
      i := i + 1;
    }
    assert forall k :: 0 <= k < n ==> old(a[..n])[k] != x;
    return false;
  }
}
