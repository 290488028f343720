/**
 * The order of a table's columns: `List.sort(Comparator.comparingInt(ColumnInfo::getPosition))`.
 * The sort is stable, so its result is fixed by the input: sorted by position, and for
 * every position the columns holding it in their input order. `SortByPosition` is an
 * insertion sort with exactly that result (`StableSortIsUnique`); `SortInPlace` runs
 * it on an array.
 */
module ColumnOrder {
  import opened Messages

  predicate Sorted(s: seq<Column>)
  {
    forall i, j :: 0 <= i < j < |s| ==> s[i].position <= s[j].position
  }

  /** The columns of `s` at position `p`, in the order in which `s` holds them. */
  function AtPosition(s: seq<Column>, p: int): seq<Column>
    decreases |s|
  {
    if |s| == 0 then []
    else AtPosition(s[..|s| - 1], p) + (if s[|s| - 1].position == p then [s[|s| - 1]] else [])
  }

  /** A stable sort keeps, for every position, the columns holding it in input order. */
  ghost predicate Stable(input: seq<Column>, output: seq<Column>)
  {
    forall p :: AtPosition(output, p) == AtPosition(input, p)
  }

  /** `x` placed after every column of the sorted `s` whose position is not greater. */
  function Insert(s: seq<Column>, x: Column): seq<Column>
    decreases |s|
  {
    if |s| == 0 || s[|s| - 1].position <= x.position then s + [x]
    else Insert(s[..|s| - 1], x) + [s[|s| - 1]]
  }

  function SortByPosition(s: seq<Column>): seq<Column>
    decreases |s|
  {
    if |s| == 0 then [] else Insert(SortByPosition(s[..|s| - 1]), s[|s| - 1])
  }

  // ---------------------------------------------------------------- Insert

  lemma {:induction false} InsertElements(s: seq<Column>, x: Column)
    ensures multiset(Insert(s, x)) == multiset(s) + multiset{x}
    decreases |s|
  {
    if |s| > 0 && s[|s| - 1].position > x.position {
      var init, last := s[..|s| - 1], s[|s| - 1];
      InsertElements(init, x);
      assert s == init + [last];
    }
  }

  lemma {:induction false} InsertSorted(s: seq<Column>, x: Column)
    requires Sorted(s)
    ensures Sorted(Insert(s, x))
    decreases |s|
  {
    if |s| > 0 && s[|s| - 1].position > x.position {
      var init, last := s[..|s| - 1], s[|s| - 1];
      InsertSorted(init, x);
      InsertElements(init, x);
      var t := Insert(init, x);
      forall i | 0 <= i < |t| ensures t[i].position <= last.position {
        assert t[i] in multiset(t);
        assert t[i] in multiset(init) || t[i] == x;
        if t[i] in multiset(init) {
          var k :| 0 <= k < |init| && init[k] == t[i];
          assert s[k] == t[i];
        }
      }
    }
  }

  lemma {:induction false} InsertAtPosition(s: seq<Column>, x: Column, p: int)
    ensures AtPosition(Insert(s, x), p)
         == AtPosition(s, p) + (if x.position == p then [x] else [])
    decreases |s|
  {
    if |s| == 0 || s[|s| - 1].position <= x.position {
      assert (s + [x])[..|s|] == s;
    } else {
      var init, last := s[..|s| - 1], s[|s| - 1];
      InsertAtPosition(init, x, p);
      var t := Insert(init, x);
      assert (t + [last])[..|t|] == t;
    }
  }

  // ---------------------------------------------------------------- the sort

  /** The sorted list holds the same columns, as many times each. */
  lemma {:induction false} SortIsPermutation(s: seq<Column>)
    ensures multiset(SortByPosition(s)) == multiset(s)
    ensures |SortByPosition(s)| == |s|
    decreases |s|
  {
    if |s| > 0 {
      var init := s[..|s| - 1];
      SortIsPermutation(init);
      InsertElements(SortByPosition(init), s[|s| - 1]);
      assert s == init + [s[|s| - 1]];
    }
  }

  /** The sorted list is in ascending position order. */
  lemma {:induction false} SortIsSorted(s: seq<Column>)
    ensures Sorted(SortByPosition(s))
    decreases |s|
  {
    if |s| > 0 {
      SortIsSorted(s[..|s| - 1]);
      InsertSorted(SortByPosition(s[..|s| - 1]), s[|s| - 1]);
    }
  }

  /** Columns with equal positions keep their input order. */
  lemma {:induction false} SortIsStable(s: seq<Column>)
    ensures Stable(s, SortByPosition(s))
    decreases |s|
  {
    if |s| > 0 {
      var init := s[..|s| - 1];
      SortIsStable(init);
      forall p ensures AtPosition(SortByPosition(s), p) == AtPosition(s, p) {
        InsertAtPosition(SortByPosition(init), s[|s| - 1], p);
      }
    }
  }

  lemma AtPositionMembers(s: seq<Column>, p: int, x: Column)
    requires x in AtPosition(s, p)
    ensures x in s && x.position == p
    decreases |s|
  {
    var init := s[..|s| - 1];
    if x in AtPosition(init, p) {
      AtPositionMembers(init, p, x);
      assert init <= s;
    }
  }

  /** Two sorted lists with the same columns at every position are equal. */
  lemma {:induction false} SortedAndStableDetermine(t1: seq<Column>, t2: seq<Column>)
    requires Sorted(t1) && Sorted(t2)
    requires forall p :: AtPosition(t1, p) == AtPosition(t2, p)
    ensures t1 == t2
    decreases |t1| + |t2|
  {
    if |t1| == 0 && |t2| > 0 {
      LastHasItsPosition(t2);
      assert false;
    } else if |t2| == 0 && |t1| > 0 {
      LastHasItsPosition(t1);
      assert false;
    } else if |t1| > 0 {
      var a, b := t1[|t1| - 1], t2[|t2| - 1];
      var i1, i2 := t1[..|t1| - 1], t2[..|t2| - 1];
      assert AtPosition(t1, a.position) == AtPosition(i1, a.position) + [a];
      assert AtPosition(t2, b.position) == AtPosition(i2, b.position) + [b];
      // the largest position is the same on both sides
      var ab := AtPosition(t2, a.position);
      assert a in ab;
      AtPositionMembers(t2, a.position, a);
      var ba := AtPosition(t1, b.position);
      assert b in ba;
      AtPositionMembers(t1, b.position, b);
      assert a.position == b.position;
      var m := a.position;
      var f1, f2 := AtPosition(i1, m), AtPosition(i2, m);
      assert f1 + [a] == f2 + [b];
      LastOfAppend(f1, a, f2, b);
      forall p ensures AtPosition(i1, p) == AtPosition(i2, p) {
        assert AtPosition(t1, p) == AtPosition(t2, p);
        assert t1[|t1| - 1] == a && t2[|t2| - 1] == b;
        if p != m {
          assert AtPosition(t1, p) == AtPosition(i1, p);
          assert AtPosition(t2, p) == AtPosition(i2, p);
        } else {
          assert f1 == f2;
        }
      }
      SortedAndStableDetermine(i1, i2);
      assert t1 == i1 + [a] && t2 == i2 + [b];
    }
  }

  lemma LastHasItsPosition(t: seq<Column>)
    requires |t| > 0
    ensures AtPosition(t, t[|t| - 1].position) != []
  {
  }

  lemma LastOfAppend(f1: seq<Column>, a: Column, f2: seq<Column>, b: Column)
    requires f1 + [a] == f2 + [b]
    ensures f1 == f2 && a == b
  {
    assert |f1| == |f2|;
    assert a == (f1 + [a])[|f1|] == (f2 + [b])[|f2|] == b;
    assert f1 == (f1 + [a])[..|f1|];
    assert f2 == (f2 + [b])[..|f2|];
  }

  /** Any stable sort by position, TimSort included, returns what `SortByPosition` returns. */
  lemma StableSortIsUnique(s: seq<Column>, t: seq<Column>)
    requires Sorted(t) && Stable(s, t)
    ensures t == SortByPosition(s)
  {
    SortIsSorted(s);
    SortIsStable(s);
    SortedAndStableDetermine(t, SortByPosition(s));
  }

  // ---------------------------------------------------------------- in place

  /** One step of the insertion sort: `a[i]` moves left past every larger position. */
  method InsertInPlace(a: array<Column>, i: nat, ghost done: seq<Column>, ghost x: Column, ghost rest: seq<Column>)
    requires i < a.Length && |done| == i
    requires a[..] == done + [x] + rest
    modifies a
    ensures a[..] == Insert(done, x) + rest
  {
    assert a[i] == (done + [x] + rest)[i];
    var key := a[i];
    var j := i;
    assert a[..] == done[..j] + [a[j]] + done[j..i] + rest;
    assert done[..j] == done;
    while j > 0 && a[j - 1].position > key.position
      invariant 0 <= j <= i
      invariant a[..] == done[..j] + [a[j]] + done[j..i] + rest
      invariant Insert(done, x) == Insert(done[..j], x) + done[j..i]
    {
      ShiftStep(done, x, j, i);
      ShiftWrite(done, rest, j, i, a[j]);
      a[j] := a[j - 1];
      j := j - 1;
    }
    ShiftWrite(done, rest, j, i, a[j]);
    a[j] := key;
    assert a[..] == done[..j] + [x] + done[j..i] + rest;
  }

  lemma ShiftStep(done: seq<Column>, x: Column, j: nat, i: nat)
    requires 0 < j <= i == |done|
    requires done[j - 1].position > x.position
    ensures Insert(done[..j], x) + done[j..i] == Insert(done[..j - 1], x) + done[j - 1..i]
  {
    assert done[..j][..j - 1] == done[..j - 1];
    assert done[j - 1..i] == [done[j - 1]] + done[j..i];
  }

  /** Overwriting the hole at `j` of the shifted array. */
  lemma ShiftWrite(done: seq<Column>, rest: seq<Column>, j: nat, i: nat, h: Column)
    requires j <= i == |done|
    ensures forall v :: (done[..j] + [h] + done[j..i] + rest)[j := v] == done[..j] + [v] + done[j..i] + rest
    ensures 0 < j ==>
      (done[..j] + [h] + done[j..i] + rest)[j := done[j - 1]]
      == done[..j - 1] + [done[j - 1]] + done[j - 1..i] + rest
  {
    if 0 < j {
      var v := done[j - 1];
      assert done[..j] == done[..j - 1] + [v];
      assert done[j - 1..i] == [v] + done[j..i];
      assert done[..j] + [v] + done[j..i] + rest == done[..j - 1] + [v] + done[j - 1..i] + rest;
    }
  }

  lemma SortStep(s: seq<Column>, i: nat)
    requires i < |s|
    ensures |SortByPosition(s[..i])| == i
    ensures SortByPosition(s[..i + 1]) == Insert(SortByPosition(s[..i]), s[i])
    ensures SortByPosition(s[..i]) + s[i..] == SortByPosition(s[..i]) + [s[i]] + s[i + 1..]
  {
    SortIsPermutation(s[..i]);
    assert s[..i + 1][..i] == s[..i];
    assert s[i..] == [s[i]] + s[i + 1..];
  }

  /** Insertion sort of the array, in place. */
  method SortInPlace(a: array<Column>)
    modifies a
    ensures a[..] == SortByPosition(old(a[..]))
  {
    ghost var s := a[..];
    var i := 0;
    while i < a.Length
      invariant 0 <= i <= a.Length == |s|
      invariant a[..] == SortByPosition(s[..i]) + s[i..]
    {
      SortStep(s, i);
      InsertInPlace(a, i, SortByPosition(s[..i]), s[i], s[i + 1..]);
      i := i + 1;
    }
    assert s[..a.Length] == s;
  }
}
