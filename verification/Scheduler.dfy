/** The event scheduler (src/scheduler.c): the event table and its order. */
module Scheduler {
  import opened Action

  const SCHEDULER_MAX_EVENT: nat := 0xFFFF

  /** A scheduled event; `idx` is its position of insertion. */
  datatype Ev = Ev(time: nat, action: Action, idx: nat)

  // ------------------------------------------------------------- the order

  /** `scheduler_compare_event`. */
  function Compare(a: Ev, b: Ev): int {
    if a.time > b.time then 1
    else if a.time < b.time then -1
    else if a.idx > b.idx then 1
    else if a.idx < b.idx then -1
    else 0
  }

  /** Every event of the table carries its own position. */
  ghost predicate Numbered(table: seq<Ev>) {
    forall i :: 0 <= i < |table| ==> table[i].idx == i
  }

  ghost predicate Sorted(s: seq<Ev>) {
    forall i, j :: 0 <= i < j < |s| ==> Compare(s[i], s[j]) <= 0
  }

  ghost predicate Strict(s: seq<Ev>) {
    forall i, j :: 0 <= i < j < |s| ==> Compare(s[i], s[j]) < 0
  }

  /** What `qsort` promises: a permutation of the table, ordered by the comparison. */
  ghost predicate IsSortOf(s: seq<Ev>, table: seq<Ev>) {
    multiset(s) == multiset(table) && Sorted(s)
  }

  /** Among these events the index identifies the event. */
  ghost predicate Identified(s: seq<Ev>) {
    forall i, j :: 0 <= i < |s| && 0 <= j < |s| && s[i].idx == s[j].idx ==> s[i] == s[j]
  }

  /** The comparison is a strict total order on events with different indices. */
  lemma CompareIsTotalOrder(a: Ev, b: Ev, c: Ev)
    ensures Compare(a, b) == -Compare(b, a)
    ensures a.idx != b.idx ==> Compare(a, b) != 0
    ensures Compare(a, b) <= 0 && Compare(b, c) <= 0 ==> Compare(a, c) <= 0
    ensures Compare(a, b) == 0 <==> a.time == b.time && a.idx == b.idx
  {}

  lemma SameElements(a: seq<Ev>, b: seq<Ev>)
    requires multiset(a) == multiset(b)
    ensures |a| == |b| && forall x :: x in a <==> x in b
  {
    assert |multiset(a)| == |a| && |multiset(b)| == |b|;
    forall x ensures x in a <==> x in b {
      assert x in multiset(a) <==> x in multiset(b);
    }
  }

  lemma SameLast(a: seq<Ev>, b: seq<Ev>)
    requires multiset(a) == multiset(b) && Sorted(a) && Sorted(b) && Identified(a) && a != []
    ensures b != [] && a[|a| - 1] == b[|b| - 1]
  {
    SameElements(a, b);
    var x, y := a[|a| - 1], b[|b| - 1];
    assert x in b && y in a;
    assert Compare(x, y) <= 0;
    assert Compare(y, x) <= 0;
    var i :| 0 <= i < |a| && a[i] == y;
  }

  lemma WithoutLast(a: seq<Ev>)
    requires a != []
    ensures multiset(a[..|a| - 1]) == multiset(a) - multiset{a[|a| - 1]}
  {
    assert a == a[..|a| - 1] + [a[|a| - 1]];
  }

  lemma {:induction false} SortsAgree(a: seq<Ev>, b: seq<Ev>)
    requires multiset(a) == multiset(b) && Sorted(a) && Sorted(b) && Identified(a)
    ensures a == b
  {
    SameElements(a, b);
    if a != [] {
      var n := |a| - 1;
      SameLast(a, b);
      WithoutLast(a);
      WithoutLast(b);
      SortsAgree(a[..n], b[..n]);
      assert a == a[..n] + [a[n]] && b == b[..n] + [b[n]];
    }
  }

  lemma SortIsIdentified(s: seq<Ev>, table: seq<Ev>)
    requires Numbered(table) && multiset(s) == multiset(table)
    ensures Identified(s)
    ensures |s| == |table| && forall x :: x in s <==> x in table
  {
    SameElements(s, table);
    forall i, j | 0 <= i < |s| && 0 <= j < |s| && s[i].idx == s[j].idx ensures s[i] == s[j] {
      assert s[i] in table && s[j] in table;
    }
  }

  /** Insert after every event that is not later. */
  function InsertByTime(s: seq<Ev>, x: Ev): seq<Ev> {
    if s == [] || s[|s| - 1].time <= x.time then s + [x]
    else InsertByTime(s[..|s| - 1], x) + [s[|s| - 1]]
  }

  /** The stable sort by time alone, which never looks at the index. */
  function StableSort(table: seq<Ev>): seq<Ev> {
    if table == [] then [] else InsertByTime(StableSort(table[..|table| - 1]), table[|table| - 1])
  }

  lemma {:induction false} InsertElements(s: seq<Ev>, x: Ev)
    ensures multiset(InsertByTime(s, x)) == multiset(s) + multiset{x}
  {
    if s == [] || s[|s| - 1].time <= x.time {
    } else {
      InsertElements(s[..|s| - 1], x);
      assert s == s[..|s| - 1] + [s[|s| - 1]];
    }
  }

  lemma StrictExtend(s: seq<Ev>, z: Ev)
    requires Strict(s) && forall y :: y in s ==> Compare(y, z) < 0
    ensures Strict(s + [z])
  {}

  lemma BelowLast(s: seq<Ev>, y: Ev)
    requires Strict(s) && y in s
    ensures y == s[|s| - 1] || Compare(y, s[|s| - 1]) < 0
  {}

  lemma {:induction false} InsertIsSorted(s: seq<Ev>, x: Ev)
    requires Strict(s) && forall y :: y in s ==> y.idx < x.idx
    ensures Strict(InsertByTime(s, x))
  {
    if s == [] || s[|s| - 1].time <= x.time {
      forall y | y in s ensures Compare(y, x) < 0 {
        BelowLast(s, y);
      }
      StrictExtend(s, x);
    } else {
      var n, z := |s| - 1, s[|s| - 1];
      InsertIsSorted(s[..n], x);
      InsertElements(s[..n], x);
      var r := InsertByTime(s[..n], x);
      forall y | y in r ensures Compare(y, z) < 0 {
        assert y in multiset(r);
        assert y == x || y in s[..n];
        if y != x {
          var i :| 0 <= i < n && s[i] == y;
        }
      }
      StrictExtend(r, z);
    }
  }

  /** Inserting the next event of the table into the sorted events before it. */
  lemma InsertNext(s: seq<Ev>, before: seq<Ev>, x: Ev)
    requires Numbered(before) && x.idx == |before| && multiset(s) == multiset(before) && Strict(s)
    ensures multiset(InsertByTime(s, x)) == multiset(before + [x]) && Strict(InsertByTime(s, x))
  {
    SortIsIdentified(s, before);
    InsertIsSorted(s, x);
    InsertElements(s, x);
  }

  lemma {:induction false} StableSortSorts(table: seq<Ev>)
    requires Numbered(table)
    ensures IsSortOf(StableSort(table), table) && Strict(StableSort(table))
  {
    if table != [] {
      var n, x := |table| - 1, table[|table| - 1];
      StableSortSorts(table[..n]);
      InsertNext(StableSort(table[..n]), table[..n], x);
      assert table == table[..n] + [x];
    }
  }

  /** Whatever `qsort` does, it leaves the table in the one order of the stable sort by time. */
  lemma SortDeterministic(s: seq<Ev>, table: seq<Ev>)
    requires Numbered(table) && IsSortOf(s, table)
    ensures s == StableSort(table) && Strict(s)
  {
    StableSortSorts(table);
    SortIsIdentified(s, table);
    SortsAgree(s, StableSort(table));
  }
}
