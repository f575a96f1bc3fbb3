/**
 The two JavaScript array primitives the selection list is built on,
 `Array.prototype.indexOf` and `Array.prototype.splice(i, 1)`, together with
 the "no duplicates" property and a filter used to describe removal.
 */
module Lists {

  /** No value occurs twice in `s`. */
  predicate NoDup(s: seq<int>)
  {
    forall i, j :: 0 <= i < j < |s| ==> s[i] != s[j]
  }

  lemma NoDupTail(s: seq<int>)
    requires NoDup(s) && s != []
    ensures NoDup(s[1..]) && s[0] !in s[1..]
  {
    var t := s[1..];
    forall a, b | 0 <= a < b < |t| ensures t[a] != t[b] {
      assert t[a] == s[a + 1] && t[b] == s[b + 1];
    }
    forall k | 0 <= k < |t| ensures t[k] != s[0] {
      assert t[k] == s[k + 1];
    }
  }

  /** `s.indexOf(x)`: the first position of `x` in `s`, or -1 when absent. */
  function IndexOf(s: seq<int>, x: int): (r: int)
    ensures -1 <= r < |s|
    ensures r == -1 <==> x !in s
    ensures r >= 0 ==> s[r] == x && x !in s[..r]
  {
    if |s| == 0 then -1
    else if s[0] == x then 0
    else
      var k := IndexOf(s[1..], x);
      if k == -1 then -1
      else
        assert s[..k + 1] == [s[0]] + s[1..][..k];
        k + 1
  }

  /** `s.splice(i, 1)`: `s` without its element at position `i`. */
  function RemoveAt(s: seq<int>, i: nat): (r: seq<int>)
    requires i < |s|
    ensures |r| == |s| - 1
    ensures forall k :: 0 <= k < |r| ==> r[k] == if k < i then s[k] else s[k + 1]
  {
    s[..i] + s[i + 1..]
  }

  /** `s` with every occurrence of `x` dropped, the others in their order. */
  function Without(s: seq<int>, x: int): (r: seq<int>)
    ensures x !in r
    ensures forall y :: y in r <==> y in s && y != x
  {
    if s == [] then []
    else (if s[0] == x then [] else [s[0]]) + Without(s[1..], x)
  }

  lemma {:induction false} WithoutAbsent(s: seq<int>, x: int)
    requires x !in s
    ensures Without(s, x) == s
  {
    if s != [] {
      WithoutAbsent(s[1..], x);
    }
  }

  /** Removing the only occurrence of `x` by position is the same as
      filtering `x` out: every other element keeps its relative order. */
  lemma {:induction false} RemoveAtIsWithout(s: seq<int>, i: nat)
    requires NoDup(s) && i < |s|
    ensures RemoveAt(s, i) == Without(s, s[i])
  {
    var x := s[i];
    NoDupTail(s);
    if i == 0 {
      WithoutAbsent(s[1..], x);
      assert RemoveAt(s, 0) == s[1..];
    } else {
      assert s[0] != x;
      var t := s[1..];
      assert t[i - 1] == x;
      RemoveAtIsWithout(t, i - 1);
      assert RemoveAt(s, i) == [s[0]] + RemoveAt(t, i - 1);
    }
  }

  /** Removing one position keeps a duplicate-free list duplicate-free. */
  lemma RemoveAtKeepsNoDup(s: seq<int>, i: nat)
    requires NoDup(s) && i < |s|
    ensures NoDup(RemoveAt(s, i))
  {
    var r := RemoveAt(s, i);
    forall a, b | 0 <= a < b < |r| ensures r[a] != r[b] {
      var a' := if a < i then a else a + 1;
      var b' := if b < i then b else b + 1;
      assert r[a] == s[a'] && r[b] == s[b'] && a' < b';
    }
  }

  /** A duplicate-free list has as many elements as its set of values. */
  lemma {:induction false} NoDupCardinality(s: seq<int>)
    requires NoDup(s)
    ensures |set y | y in s| == |s|
  {
    if s != [] {
      var t := s[1..];
      NoDupTail(s);
      NoDupCardinality(t);
      assert (set y | y in s) == (set y | y in t) + {s[0]} by {
        assert s == [s[0]] + t;
      }
    }
  }
}
