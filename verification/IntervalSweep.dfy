/** The sweep-line overlap count of scripts/turn_ingestion_benchmark.py. */
module IntervalSweep {
  import opened Options
  import opened Sorting

  /** A marker file's four numbers, as parsed. */
  datatype Marker = Marker(ordinal: int, process: int, started: int, finished: int)

  datatype Event = Event(at: int, delta: int)

  // ----- The definition -----

  predicate Covers(m: Marker, p: int) {
    m.started <= p < m.finished
  }

  /** How many of the half-open intervals contain the point. */
  function Overlap(records: seq<Marker>, p: int): nat {
    if records == [] then 0
    else Overlap(records[..|records| - 1], p) + if Covers(records[|records| - 1], p) then 1 else 0
  }

  ghost predicate IsMaximumOverlap(records: seq<Marker>, m: int) {
    (forall p :: Overlap(records, p) <= m) && (exists p :: Overlap(records, p) == m)
  }

  // ----- The record filter -----

  predicate Usable(m: Marker) {
    m.ordinal >= 0 && m.process > 0 && m.finished >= m.started
  }

  function UsableOnly(values: seq<Option<Marker>>): seq<Marker> {
    if values == [] then []
    else
      var last := values[|values| - 1];
      UsableOnly(values[..|values| - 1]) + if last.Some? && Usable(last.value) then [last.value] else []
  }

  /** The records are the usable markers, each as often as it was read. */
  lemma {:induction false} FilterKeepsUsable(values: seq<Option<Marker>>)
    ensures forall m: Marker :: multiset(UsableOnly(values))[m] == if Usable(m) then multiset(values)[Some(m)] else 0
    ensures forall m :: m in UsableOnly(values) ==> Usable(m) && Some(m) in values
  {
    if values != [] {
      var rest, last := values[..|values| - 1], values[|values| - 1];
      FilterKeepsUsable(rest);
      assert values == rest + [last];
    }
  }

  /** `_marker_records`: unreadable and malformed markers are None. */
  method MarkerRecords(values: seq<Option<Marker>>) returns (records: seq<Marker>)
    ensures records == UsableOnly(values)
  {
    records := [];
    for i := 0 to |values|
      invariant records == UsableOnly(values[..i])
    {
      assert values[..i + 1][..i] == values[..i];
      if values[i].None? || !Usable(values[i].value) { continue; }
      records := records + [values[i].value];
    }
    assert values[..|values|] == values;
  }

  // ----- Sorting -----

  predicate Before(a: Event, b: Event) {
    a.at < b.at || (a.at == b.at && a.delta <= b.delta)
  }

  // ----- Sums over events -----

  /** The sum of the deltas at or before p. */
  function SumUpTo(events: seq<Event>, p: int): int {
    if events == [] then 0 else SumUpTo(events[1..], p) + if events[0].at <= p then events[0].delta else 0
  }

  function Total(events: seq<Event>): int {
    if events == [] then 0 else Total(events[..|events| - 1]) + events[|events| - 1].delta
  }

  lemma {:induction false} SumInserted(e: Event, events: seq<Event>, p: int)
    ensures SumUpTo(Inserted(e, events, Before), p) == SumUpTo(events, p) + if e.at <= p then e.delta else 0
  {
    if events == [] || Before(e, events[0]) { assert ([e] + events)[1..] == events; }
    else {
      SumInserted(e, events[1..], p);
      assert ([events[0]] + Inserted(e, events[1..], Before))[1..] == Inserted(e, events[1..], Before);
    }
  }

  lemma {:induction false} SumSorted(events: seq<Event>, p: int)
    ensures SumUpTo(Sorted(events, Before), p) == SumUpTo(events, p)
  {
    if events != [] {
      SumSorted(events[1..], p);
      SumInserted(events[0], Sorted(events[1..], Before), p);
    }
  }

  lemma {:induction false} SumAppended(events: seq<Event>, more: seq<Event>, p: int)
    ensures SumUpTo(events + more, p) == SumUpTo(events, p) + SumUpTo(more, p)
  {
    if events == [] { assert events + more == more; }
    else {
      SumAppended(events[1..], more, p);
      assert (events + more)[1..] == events[1..] + more;
    }
  }

  function EventsOf(records: seq<Marker>): seq<Event> {
    if records == [] then []
    else
      var last := records[|records| - 1];
      EventsOf(records[..|records| - 1]) + [Event(last.started, 1)] + [Event(last.finished, -1)]
  }

  /** Counting starts and finishes up to a point counts the intervals that contain it. */
  lemma {:induction false} SumIsOverlap(records: seq<Marker>, p: int)
    requires forall i :: 0 <= i < |records| ==> records[i].started <= records[i].finished
    ensures SumUpTo(EventsOf(records), p) == Overlap(records, p)
  {
    if records != [] {
      var (rest, last) := (records[..|records| - 1], records[|records| - 1]);
      SumIsOverlap(rest, p);
      SumAppended(EventsOf(rest) + [Event(last.started, 1)], [Event(last.finished, -1)], p);
      SumAppended(EventsOf(rest), [Event(last.started, 1)], p);
    }
  }

  // ----- Prefixes of the sorted events -----

  /** The events up to a point are a prefix, and its total is their sum. */
  lemma {:induction false} PrefixTotal(events: seq<Event>, k: nat, p: int)
    requires k <= |events|
    requires forall i :: 0 <= i < k ==> events[i].at <= p
    requires forall i :: k <= i < |events| ==> events[i].at > p
    ensures Total(events[..k]) == SumUpTo(events, p)
    decreases |events|
  {
    assert events == events[..k] + events[k..];
    SumAppended(events[..k], events[k..], p);
    AllLater(events[k..], p);
    AllEarlier(events[..k], p);
  }

  lemma {:induction false} AllLater(events: seq<Event>, p: int)
    requires forall i :: 0 <= i < |events| ==> events[i].at > p
    ensures SumUpTo(events, p) == 0
  {
    if events != [] { AllLater(events[1..], p); }
  }

  lemma {:induction false} AllEarlier(events: seq<Event>, p: int)
    requires forall i :: 0 <= i < |events| ==> events[i].at <= p
    ensures SumUpTo(events, p) == Total(events)
  {
    if events != [] {
      var (rest, last) := (events[..|events| - 1], events[|events| - 1]);
      AllEarlier(rest, p);
      assert events == rest + [last];
      SumAppended(rest, [last], p);
    }
  }

  /** Where the events up to p end. */
  function Boundary(events: seq<Event>, p: int): (k: nat)
    requires Ordered(events, Before)
    ensures k <= |events|
    ensures forall i :: 0 <= i < k ==> events[i].at <= p
    ensures forall i :: k <= i < |events| ==> events[i].at > p
  {
    if events == [] || events[0].at > p then 0
    else 1 + Boundary(events[1..], p)
  }

  predicate Unit(events: seq<Event>) {
    forall i :: 0 <= i < |events| ==> events[i].delta == 1 || events[i].delta == -1
  }

  /** No event at k - 1 happens at the same moment as the one at k. */
  predicate Between(events: seq<Event>, k: nat)
    requires k <= |events|
  {
    k == 0 || k == |events| || events[k - 1].at < events[k].at
  }

  lemma {:induction false} BetweenIsAPoint(events: seq<Event>, k: nat) returns (p: int)
    requires Ordered(events, Before) && k <= |events| && Between(events, k)
    ensures Total(events[..k]) == SumUpTo(events, p)
  {
    p := if k > 0 then events[k - 1].at else if events == [] then 0 else events[0].at - 1;
    PrefixTotal(events, k, p);
  }

  /** Inside a run of simultaneous events the finishes come first. After a start only starts follow,
      so the total there is no higher than at the end of the run... */
  lemma {:induction false} RunEndsHigher(events: seq<Event>, k: nat) returns (p: int)
    requires Ordered(events, Before) && Unit(events) && 0 < k <= |events| && events[k - 1].delta == 1
    ensures Total(events[..k]) <= SumUpTo(events, p)
    decreases |events| - k
  {
    if Between(events, k) { p := BetweenIsAPoint(events, k); }
    else {
      assert Before(events[k - 1], events[k]);
      assert events[..k + 1][..k] == events[..k];
      p := RunEndsHigher(events, k + 1);
    }
  }

  /** ... and before a finish only finishes came, so it is no higher than where the run begins. */
  lemma {:induction false} RunBeginsHigher(events: seq<Event>, k: nat) returns (p: int)
    requires Ordered(events, Before) && Unit(events) && 0 < k < |events| && events[k - 1].delta == -1
    ensures Total(events[..k]) <= SumUpTo(events, p)
    decreases k
  {
    assert events[..k][..k - 1] == events[..k - 1];
    if Between(events, k - 1) { p := BetweenIsAPoint(events, k - 1); }
    else {
      assert Before(events[k - 2], events[k - 1]);
      p := RunBeginsHigher(events, k - 1);
    }
  }

  /** So no prefix of the sorted events exceeds the sum at some point. */
  lemma {:induction false} PrefixBelowSomePoint(events: seq<Event>, k: nat) returns (p: int)
    requires Ordered(events, Before) && Unit(events) && k <= |events|
    ensures Total(events[..k]) <= SumUpTo(events, p)
  {
    if Between(events, k) { p := BetweenIsAPoint(events, k); }
    else if events[k - 1].delta == 1 { p := RunEndsHigher(events, k); }
    else { p := RunBeginsHigher(events, k); }
  }

  // ----- The sweep -----

  function HighWater(events: seq<Event>): (m: int)
    ensures m >= 0
  {
    if events == [] then 0
    else
      var before := HighWater(events[..|events| - 1]);
      if Total(events) > before then Total(events) else before
  }

  lemma {:induction false} HighWaterIsMaximum(events: seq<Event>)
    ensures forall k :: 0 <= k <= |events| ==> Total(events[..k]) <= HighWater(events)
    ensures exists k :: 0 <= k <= |events| && Total(events[..k]) == HighWater(events)
  {
    var n := |events|;
    assert events[..n] == events && Total(events[..0]) == 0;
    if n > 0 {
      var rest := events[..n - 1];
      HighWaterIsMaximum(rest);
      forall k | 0 <= k <= n ensures Total(events[..k]) <= HighWater(events) {
        if k < n { assert rest[..k] == events[..k]; }
      }
      var k :| 0 <= k <= |rest| && Total(rest[..k]) == HighWater(rest);
      assert rest[..k] == events[..k];
      assert Total(events[..k]) == HighWater(events) || Total(events[..n]) == HighWater(events);
    }
  }

  /** The high-water mark of the sorted sweep is the largest overlap at any point. */
  lemma {:induction false} SweepIsMaximumOverlap(records: seq<Marker>)
    requires forall i :: 0 <= i < |records| ==> records[i].started <= records[i].finished
    ensures IsMaximumOverlap(records, HighWater(Sorted(EventsOf(records), Before)))
  {
    var events := Sorted(EventsOf(records), Before);
    SortedKeeps(EventsOf(records), Before);
    EventsAreUnit(records);
    SortedUnit(EventsOf(records));
    forall p ensures Overlap(records, p) == SumUpTo(events, p) {
      SumSorted(EventsOf(records), p);
      SumIsOverlap(records, p);
    }
    var p := HighWaterIsReached(events);
    assert Overlap(records, p) == HighWater(events);
  }

  lemma {:induction false} HighWaterIsReached(events: seq<Event>) returns (p: int)
    requires Ordered(events, Before) && Unit(events)
    ensures SumUpTo(events, p) == HighWater(events)
    ensures forall q :: SumUpTo(events, q) <= HighWater(events)
  {
    HighWaterIsMaximum(events);
    forall q ensures SumUpTo(events, q) <= HighWater(events) {
      PrefixTotal(events, Boundary(events, q), q);
    }
    var k :| 0 <= k <= |events| && Total(events[..k]) == HighWater(events);
    p := PrefixBelowSomePoint(events, k);
  }

  lemma {:induction false} SortedUnit(events: seq<Event>)
    requires Unit(events)
    ensures Unit(Sorted(events, Before))
  {
    SortedKeeps(events, Before);
    forall i | 0 <= i < |Sorted(events, Before)| ensures Sorted(events, Before)[i].delta == 1 || Sorted(events, Before)[i].delta == -1 {
      assert Sorted(events, Before)[i] in multiset(Sorted(events, Before));
      assert Sorted(events, Before)[i] in events;
    }
  }

  lemma {:induction false} EventsAreUnit(records: seq<Marker>)
    ensures Unit(EventsOf(records))
  {
    if records != [] { EventsAreUnit(records[..|records| - 1]); }
  }

  /** `_interval_maximum`. */
  method IntervalMaximum(records: seq<Marker>) returns (maximum: int)
    requires forall i :: 0 <= i < |records| ==> records[i].started <= records[i].finished
    ensures IsMaximumOverlap(records, maximum)
  {
    var events := [];
    for i := 0 to |records|
      invariant events == EventsOf(records[..i])
    {
      assert records[..i + 1][..i] == records[..i];
      events := events + [Event(records[i].started, 1)];
      events := events + [Event(records[i].finished, -1)];
    }
    assert records[..|records|] == records;
    var sorted := Sorted(events, Before);
    var active := 0;
    maximum := 0;
    for k := 0 to |sorted|
      invariant active == Total(sorted[..k]) && maximum == HighWater(sorted[..k])
    {
      assert sorted[..k + 1][..k] == sorted[..k];
      active := active + sorted[k].delta;
      maximum := if maximum < active then active else maximum;
    }
    assert sorted[..|sorted|] == sorted;
    SweepIsMaximumOverlap(records);
  }

  /** The whole measurement: whatever the marker files hold, the reported number is the largest
      overlap of the usable ones. */
  method MeasuredOverlap(values: seq<Option<Marker>>) returns (maximum: int)
    ensures IsMaximumOverlap(UsableOnly(values), maximum)
  {
    var records := MarkerRecords(values);
    FilterKeepsUsable(values);
    forall i | 0 <= i < |records| ensures records[i].started <= records[i].finished { assert records[i] in records; }
    maximum := IntervalMaximum(records);
  }
}
