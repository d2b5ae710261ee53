/** The layout of the event table: lists of timed events, one per trace line, appended in file order
    and numbered, and the (time, position) order that sorting gives them. */
module Layout {
  import opened Action
  import opened Scheduler

  datatype Timed = Timed(time: nat, action: Action)

  type Chunks = seq<seq<Timed>>

  function Number(es: seq<Timed>, base: nat): (r: seq<Ev>)
    ensures |r| == |es|
  {
    seq(|es|, k requires 0 <= k < |es| => Ev(es[k].time, es[k].action, base + k))
  }

  /** The event table that lists of timed events, one per line, make up. */
  function Table(cs: Chunks): seq<Ev> {
    if cs == [] then [] else
    var t := Table(cs[..|cs| - 1]);
    t + Number(cs[|cs| - 1], |t|)
  }

  /** The number of events compiled from the first `i` lines. */
  function Base(cs: Chunks, i: nat): nat
    requires i <= |cs|
  {
    |Table(cs[..i])|
  }

  predicate Has(cs: Chunks, i: int, k: int) { 0 <= i < |cs| && 0 <= k < |cs[i]| }

  /** The `k`-th event of line `i`. */
  function EvAt(cs: Chunks, i: int, k: int): Ev
    requires Has(cs, i, k)
  {
    Ev(cs[i][k].time, cs[i][k].action, Base(cs, i) + k)
  }

  // ----------------------------------------------------- lines and the table

  lemma BaseNext(cs: Chunks, i: nat)
    requires i < |cs|
    ensures Base(cs, i + 1) == Base(cs, i) + |cs[i]|
    ensures Table(cs[..i + 1]) == Table(cs[..i]) + Number(cs[i], Base(cs, i))
  {
    assert cs[..i + 1][..i] == cs[..i];
  }

  lemma {:induction false} BaseOrder(cs: Chunks, i: nat, j: nat)
    requires i < j <= |cs|
    ensures Base(cs, i) + |cs[i]| <= Base(cs, j)
    decreases j
  {
    BaseNext(cs, j - 1);
    if i < j - 1 {
      BaseOrder(cs, i, j - 1);
    }
  }

  lemma {:induction false} TablePrefix(cs: Chunks, i: nat)
    requires i <= |cs|
    ensures Table(cs[..i]) <= Table(cs)
    decreases |cs| - i
  {
    if i == |cs| {
      assert cs[..i] == cs;
    } else {
      BaseNext(cs, i);
      TablePrefix(cs, i + 1);
    }
  }

  lemma TableAt(cs: Chunks, i: int, k: int)
    requires Has(cs, i, k)
    ensures Base(cs, i) + k < |Table(cs)| && Table(cs)[Base(cs, i) + k] == EvAt(cs, i, k)
  {
    BaseNext(cs, i);
    TablePrefix(cs, i + 1);
    var n := Number(cs[i], Base(cs, i));
    assert Table(cs[..i + 1])[Base(cs, i) + k] == n[k];
  }

  lemma {:induction false} TableFrom(cs: Chunks, n: nat, x: nat) returns (i: int, k: int)
    requires 0 < n <= |cs| && x < Base(cs, n)
    ensures Has(cs, i, k) && i < n && x == Base(cs, i) + k
    decreases n
  {
    BaseNext(cs, n - 1);
    if x < Base(cs, n - 1) {
      i, k := TableFrom(cs, n - 1, x);
    } else {
      i, k := n - 1, x - Base(cs, n - 1);
    }
  }

  lemma TableNumbered(cs: Chunks)
    ensures Numbered(Table(cs))
  {}

  // ----------------------------------------------------- lines and the order

  predicate LexBefore(t: int, i: int, u: int, j: int) { t < u || (t == u && i < j) }

  /** Whether event `k` of line `i` comes before event `h` of line `j` by (time, position). */
  predicate ComesBefore(cs: Chunks, i: int, k: int, j: int, h: int)
    requires Has(cs, i, k) && Has(cs, j, h)
  {
    var t, u := cs[i][k].time, cs[j][h].time;
    t < u || (t == u && (i < j || (i == j && k < h)))
  }

  lemma CompareEvents(cs: Chunks, i: int, k: int, j: int, h: int)
    requires Has(cs, i, k) && Has(cs, j, h)
    ensures ComesBefore(cs, i, k, j, h) <==> Compare(EvAt(cs, i, k), EvAt(cs, j, h)) < 0
  {
    if i < j {
      BaseOrder(cs, i, j);
    } else if j < i {
      BaseOrder(cs, j, i);
    }
  }

  /** A sorted table holds each event of each line, once, in (time, position) order. */
  ghost predicate SortedTrace(cs: Chunks, evs: seq<Ev>) { IsSortOf(evs, Table(cs)) }

  lemma Placed(cs: Chunks, evs: seq<Ev>, i: int, k: int) returns (x: int)
    requires SortedTrace(cs, evs) && Has(cs, i, k)
    ensures 0 <= x < |evs| && evs[x] == EvAt(cs, i, k)
  {
    TableNumbered(cs);
    SortIsIdentified(evs, Table(cs));
    TableAt(cs, i, k);
    assert EvAt(cs, i, k) in Table(cs);
    x :| 0 <= x < |evs| && evs[x] == EvAt(cs, i, k);
  }

  lemma Origin(cs: Chunks, evs: seq<Ev>, x: int) returns (i: int, k: int)
    requires SortedTrace(cs, evs) && 0 <= x < |evs|
    ensures Has(cs, i, k) && evs[x] == EvAt(cs, i, k)
  {
    TableNumbered(cs);
    SortIsIdentified(evs, Table(cs));
    assert evs[x] in Table(cs);
    var y :| 0 <= y < |Table(cs)| && Table(cs)[y] == evs[x];
    assert cs[..|cs|] == cs;
    i, k := TableFrom(cs, |cs|, y);
    TableAt(cs, i, k);
  }

  lemma PlacedBefore(cs: Chunks, evs: seq<Ev>, i: int, k: int, j: int, h: int, x: int, y: int)
    requires SortedTrace(cs, evs) && Has(cs, i, k) && Has(cs, j, h)
    requires 0 <= x < |evs| && 0 <= y < |evs| && evs[x] == EvAt(cs, i, k) && evs[y] == EvAt(cs, j, h)
    ensures ComesBefore(cs, i, k, j, h) <==> x < y
  {
    TableNumbered(cs);
    SortDeterministic(evs, Table(cs));
    CompareEvents(cs, i, k, j, h);
    if y < x {
      assert Compare(evs[y], evs[x]) < 0;
    }
  }

  /** No event stands at two places. */
  lemma PlacedOnce(cs: Chunks, evs: seq<Ev>, i: int, k: int, x: int, y: int)
    requires SortedTrace(cs, evs) && Has(cs, i, k)
    requires 0 <= x < |evs| && 0 <= y < |evs| && evs[x] == evs[y] == EvAt(cs, i, k)
    ensures x == y
  {
    PlacedBefore(cs, evs, i, k, i, k, x, y);
    PlacedBefore(cs, evs, i, k, i, k, y, x);
  }

  lemma SameEvent(cs: Chunks, i: int, k: int, j: int, h: int)
    requires Has(cs, i, k) && Has(cs, j, h) && EvAt(cs, i, k) == EvAt(cs, j, h)
    ensures i == j && k == h
  {
    if i < j { BaseOrder(cs, i, j); } else if j < i { BaseOrder(cs, j, i); }
  }

  /** Two events of one line, one after the other and due at the same time, stay neighbours. */
  lemma Neighbours(cs: Chunks, evs: seq<Ev>, i: int, k: int, x: int)
    requires SortedTrace(cs, evs) && Has(cs, i, k) && Has(cs, i, k + 1) && cs[i][k].time == cs[i][k + 1].time
    requires 0 <= x < |evs| && evs[x] == EvAt(cs, i, k + 1)
    ensures 0 < x && evs[x - 1] == EvAt(cs, i, k)
  {
    var y := Placed(cs, evs, i, k);
    PlacedBefore(cs, evs, i, k, i, k + 1, y, x);
    var j, h := Origin(cs, evs, x - 1);
    PlacedBefore(cs, evs, i, k, j, h, y, x - 1);
    PlacedBefore(cs, evs, j, h, i, k + 1, x - 1, x);
  }
}
