/**
 The `selectedAttractions` list as a value: what one click on an attraction
 item does to it (`toggleAttractionSelection`), and what a whole sequence of
 clicks does.
 */
module Selection {
  import opened Lists

  /** The list after toggling `id`: pushed at the end when `indexOf` says
      it is absent, otherwise spliced out at the position `indexOf` found. */
  function Toggled(s: seq<int>, id: int): seq<int>
  {
    var i := IndexOf(s, id);
    if i == -1 then s + [id] else RemoveAt(s, i)
  }

  /** Toggling an absent id appends it at the end. */
  lemma ToggleAbsentAppends(s: seq<int>, id: int)
    requires id !in s
    ensures Toggled(s, id) == s + [id]
    ensures |Toggled(s, id)| == |s| + 1
  {
  }

  /** Toggling a present id removes its first occurrence and nothing else. */
  lemma TogglePresentRemovesFirst(s: seq<int>, id: int)
    requires id in s
    ensures exists i :: 0 <= i < |s| && s[i] == id && id !in s[..i] && Toggled(s, id) == RemoveAt(s, i)
    ensures |Toggled(s, id)| == |s| - 1
  {
    var i := IndexOf(s, id);
    assert s[i] == id && id !in s[..i];
  }

  /** On a duplicate-free list, toggling a present id drops exactly that id;
      the other ids keep their relative order. */
  lemma TogglePresentIsWithout(s: seq<int>, id: int)
    requires NoDup(s) && id in s
    ensures Toggled(s, id) == Without(s, id)
  {
    var i := IndexOf(s, id);
    RemoveAtIsWithout(s, i);
  }

  /** The list never acquires a duplicate. */
  lemma ToggleKeepsNoDup(s: seq<int>, id: int)
    requires NoDup(s)
    ensures NoDup(Toggled(s, id))
  {
    var i := IndexOf(s, id);
    if i >= 0 {
      RemoveAtKeepsNoDup(s, i);
    }
  }

  /** On a duplicate-free list, toggling flips the membership of `id` and
      leaves the membership of every other id alone. */
  lemma ToggleMembership(s: seq<int>, id: int, y: int)
    requires NoDup(s)
    ensures y in Toggled(s, id) <==> (if y == id then id !in s else y in s)
  {
    if id in s {
      TogglePresentIsWithout(s, id);
    }
  }

  /** Toggling an absent id twice gives back the original list. */
  lemma ToggleTwiceAbsent(s: seq<int>, id: int)
    requires id !in s
    ensures Toggled(Toggled(s, id), id) == s
  {
    var t := s + [id];
    assert IndexOf(t, id) == |s|;
    assert RemoveAt(t, |s|) == s;
  }

  /** Toggling a present id twice keeps the same ids but moves `id` to the
      end, since the second toggle pushes it afresh. */
  lemma ToggleTwicePresent(s: seq<int>, id: int)
    requires NoDup(s) && id in s
    ensures Toggled(Toggled(s, id), id) == Without(s, id) + [id]
  {
    TogglePresentIsWithout(s, id);
  }

  /** The reordering is real: deselecting and reselecting 1 in [1, 2]
      yields [2, 1]. */
  lemma ToggleTwiceReorders()
    ensures Toggled(Toggled([1, 2], 1), 1) == [2, 1]
  {
    assert IndexOf([1, 2], 1) == 0;
    assert Toggled([1, 2], 1) == [2];
    assert IndexOf([2], 1) == -1;
  }

  /** The list after a series of clicks, in click order. */
  function ToggleAll(s: seq<int>, clicks: seq<int>): seq<int>
    decreases |clicks|
  {
    if clicks == [] then s else ToggleAll(Toggled(s, clicks[0]), clicks[1..])
  }

  /** Whether `y` occurs an odd number of times in `clicks`. */
  predicate OddCount(clicks: seq<int>, y: int)
  {
    multiset(clicks)[y] % 2 == 1
  }

  lemma OddCountHead(clicks: seq<int>, y: int)
    requires clicks != []
    ensures OddCount(clicks, y) <==> (clicks[0] == y) != OddCount(clicks[1..], y)
  {
    assert clicks == [clicks[0]] + clicks[1..];
    assert multiset(clicks)[y] == (if clicks[0] == y then 1 else 0) + multiset(clicks[1..])[y];
  }

  lemma {:induction false} ToggleAllKeepsNoDup(s: seq<int>, clicks: seq<int>)
    requires NoDup(s)
    ensures NoDup(ToggleAll(s, clicks))
    decreases |clicks|
  {
    if clicks != [] {
      ToggleKeepsNoDup(s, clicks[0]);
      ToggleAllKeepsNoDup(Toggled(s, clicks[0]), clicks[1..]);
    }
  }

  /** An id is selected after a series of clicks iff it was selected before
      and clicked an even number of times, or was not and was clicked an odd
      number of times. */
  lemma {:induction false} ToggleAllParity(s: seq<int>, clicks: seq<int>, y: int)
    requires NoDup(s)
    ensures y in ToggleAll(s, clicks) <==> ((y in s) != OddCount(clicks, y))
    decreases |clicks|
  {
    if clicks != [] {
      var t := Toggled(s, clicks[0]);
      ToggleKeepsNoDup(s, clicks[0]);
      ToggleMembership(s, clicks[0], y);
      ToggleAllParity(t, clicks[1..], y);
      OddCountHead(clicks, y);
    }
  }

  /** The ids clicked an odd number of times. */
  function OddClicked(clicks: seq<int>): set<int>
  {
    set y | y in clicks && OddCount(clicks, y)
  }

  /** Starting from an empty selection, the displayed stop count (the list's
      length) is the number of ids clicked an odd number of times. */
  lemma SelectedCountIsOddClicks(clicks: seq<int>)
    ensures (set y | y in ToggleAll([], clicks)) == OddClicked(clicks)
    ensures |ToggleAll([], clicks)| == |OddClicked(clicks)|
  {
    var r := ToggleAll([], clicks);
    forall y ensures y in r <==> y in OddClicked(clicks) {
      ToggleAllParity([], clicks, y);
    }
    ToggleAllKeepsNoDup([], clicks);
    NoDupCardinality(r);
  }
}
