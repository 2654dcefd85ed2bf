/** Event counts over a range: the overview, and the same counts bucketed by
    hour or day. */
module Analytics {
  import opened Arithmetic
  import opened Options
  import opened Keyset

  datatype EventType = Queued | Delivered | Deferred | Bounced | Failed | Suppressed | Complained | Opened | Clicked

  /** Instants in nanoseconds since the epoch, UTC. */
  datatype Event = Event(kind: EventType, at: int)

  const MAX_BUCKETS: nat := 744
  const HOUR: int := 3_600_000_000_000
  const DAY: int := 24 * HOUR
  const MAX_DURATION: int := 0x7fff_ffff_ffff_ffff

  predicate InRange(e: Event, from: int, to: int) {
    from <= e.at < to
  }

  /** `count(*) FILTER (WHERE event_type = kind)` over [from, to). */
  function CountOf(events: seq<Event>, kind: EventType, from: int, to: int): nat
    decreases |events|
  {
    if events == [] then 0 else
      CountOf(events[1..], kind, from, to) + (if InRange(events[0], from, to) && events[0].kind == kind then 1 else 0)
  }

  /** date_trunc: the start of the hour or day, also before the epoch. */
  function Trunc(at: int, unit: int): int
    requires unit > 0
  {
    unit * (at / unit)
  }

  function BucketCount(events: seq<Event>, kind: EventType, from: int, to: int, unit: int, bucket: int): nat
    requires unit > 0
    decreases |events|
  {
    if events == [] then 0 else
      BucketCount(events[1..], kind, from, to, unit, bucket)
      + (if InRange(events[0], from, to) && events[0].kind == kind && Trunc(events[0].at, unit) == bucket then 1 else 0)
  }

  /** The groups of `GROUP BY bucket`: only buckets that hold an event. */
  function Buckets(events: seq<Event>, from: int, to: int, unit: int): set<Key>
    requires unit > 0
  {
    set e | e in events && InRange(e, from, to) :: Key(Trunc(e.at, unit), 0)
  }

  /** `ORDER BY bucket LIMIT AnalyticsMaxBuckets + 1`. */
  function QueryRows(events: seq<Event>, from: int, to: int, unit: int): seq<Key>
    requires unit > 0
  {
    Page(Buckets(events, from, to, unit), None, MAX_BUCKETS + 1)
  }

  // Timeseries and overview agree.

  function SumOf(events: seq<Event>, kind: EventType, from: int, to: int, unit: int, rows: seq<Key>): nat
    requires unit > 0
    decreases |rows|
  {
    if rows == [] then 0 else
      SumOf(events, kind, from, to, unit, rows[1..]) + BucketCount(events, kind, from, to, unit, rows[0].at)
  }

  /** Matching events whose bucket is among the rows. */
  function Covered(events: seq<Event>, kind: EventType, from: int, to: int, unit: int, rows: seq<Key>): nat
    requires unit > 0
    decreases |events|
  {
    if events == [] then 0 else
      Covered(events[1..], kind, from, to, unit, rows)
      + (if InRange(events[0], from, to) && events[0].kind == kind && Key(Trunc(events[0].at, unit), 0) in rows then 1 else 0)
  }

  lemma {:induction false} CoveredByOneMore(events: seq<Event>, kind: EventType, from: int, to: int, unit: int, rows: seq<Key>)
    requires unit > 0 && rows != [] && rows[0] !in rows[1..] && rows[0].id == 0
    ensures Covered(events, kind, from, to, unit, rows) ==
      Covered(events, kind, from, to, unit, rows[1..]) + BucketCount(events, kind, from, to, unit, rows[0].at)
    decreases |events|
  {
    if events != [] {
      assert forall k :: k in rows <==> k == rows[0] || k in rows[1..];
      CoveredByOneMore(events[1..], kind, from, to, unit, rows);
    }
  }

  lemma {:induction false} SumIsCovered(events: seq<Event>, kind: EventType, from: int, to: int, unit: int, rows: seq<Key>)
    requires unit > 0 && Increasing(rows) && forall k :: k in rows ==> k.id == 0
    ensures SumOf(events, kind, from, to, unit, rows) == Covered(events, kind, from, to, unit, rows)
    decreases |rows|
  {
    if rows == [] {
      NothingCovered(events, kind, from, to, unit);
    } else {
      assert forall i :: 0 <= i < |rows[1..]| ==> rows[1..][i] == rows[i + 1] && Less(rows[0], rows[i + 1]);
      assert rows[0] !in rows[1..];
      assert forall k :: k in rows[1..] ==> k in rows;
      CoveredByOneMore(events, kind, from, to, unit, rows);
      SumIsCovered(events, kind, from, to, unit, rows[1..]);
    }
  }

  lemma {:induction false} NothingCovered(events: seq<Event>, kind: EventType, from: int, to: int, unit: int)
    requires unit > 0
    ensures Covered(events, kind, from, to, unit, []) == 0
    decreases |events|
  {
    if events != [] { NothingCovered(events[1..], kind, from, to, unit); }
  }

  lemma {:induction false} AllCovered(events: seq<Event>, kind: EventType, from: int, to: int, unit: int, rows: seq<Key>)
    requires unit > 0
    requires forall e :: e in events && InRange(e, from, to) ==> Key(Trunc(e.at, unit), 0) in rows
    ensures Covered(events, kind, from, to, unit, rows) == CountOf(events, kind, from, to)
    decreases |events|
  {
    if events != [] {
      assert events[0] in events;
      assert forall e :: e in events[1..] ==> e in events;
      AllCovered(events[1..], kind, from, to, unit, rows);
    }
  }

  /** Whatever the counter: when no row was cut off, its buckets add up to the
      overview of the same range. */
  lemma RowsSumToOverview(events: seq<Event>, kind: EventType, from: int, to: int, unit: int)
    requires unit > 0 && |Buckets(events, from, to, unit)| <= MAX_BUCKETS + 1
    ensures SumOf(events, kind, from, to, unit, QueryRows(events, from, to, unit)) == CountOf(events, kind, from, to)
  {
    var rows := QueryRows(events, from, to, unit);
    RowsAreBuckets(events, from, to, unit);
    SumIsCovered(events, kind, from, to, unit, rows);
    AllCovered(events, kind, from, to, unit, rows);
  }

  lemma RowsAreBuckets(events: seq<Event>, from: int, to: int, unit: int)
    requires unit > 0
    ensures var rows, buckets := QueryRows(events, from, to, unit), Buckets(events, from, to, unit);
      && Increasing(rows) && |rows| == (if |buckets| <= MAX_BUCKETS + 1 then |buckets| else MAX_BUCKETS + 1)
      && (forall k :: k in rows ==> k in buckets && k.id == 0)
      && (|buckets| <= MAX_BUCKETS + 1 ==> forall k :: k in buckets ==> k in rows)
  {
    var buckets := Buckets(events, from, to, unit);
    assert Above(buckets, None) == buckets;
    var q := Sorted(buckets);
    assert forall k :: k in q <==> k in buckets;
  }

  // What the counts mean.

  /** The events of one kind from `from` on and before `to`, by their places. */
  function Matching(events: seq<Event>, kind: EventType, from: int, to: int): set<nat> {
    set i: nat | i < |events| && events[i].kind == kind && from <= events[i].at && events[i].at < to
  }

  lemma {:induction false} ShiftCounts(places: set<nat>, down: set<nat>)
    requires 0 !in places && forall i: nat :: i in down <==> i + 1 in places
    ensures |down| == |places|
    decreases |places|
  {
    if places == {} {
      forall i: nat ensures i !in down { assert i in down <==> i + 1 in places; }
      assert down == {};
    } else {
      var i :| i in places;
      ShiftCounts(places - {i}, down - {i - 1});
    }
  }

  lemma PlacesShift(events: seq<Event>, kind: EventType, from: int, to: int)
    requires events != []
    ensures var all := Matching(events, kind, from, to);
      && (0 in all <==> events[0].kind == kind && InRange(events[0], from, to))
      && forall i: nat :: i in Matching(events[1..], kind, from, to) <==> i + 1 in all
  {
  }

  lemma NothingMatches(kind: EventType, from: int, to: int)
    ensures Matching([], kind, from, to) == {}
  {
  }

  /** A count is the number of events of its kind in the half-open range. */
  lemma {:induction false} CountIs(events: seq<Event>, kind: EventType, from: int, to: int)
    ensures CountOf(events, kind, from, to) == |Matching(events, kind, from, to)|
    decreases |events|
  {
    hide Matching, InRange;
    var all := Matching(events, kind, from, to);
    if events == [] {
      NothingMatches(kind, from, to);
    } else {
      var later := all - {0};
      CountIs(events[1..], kind, from, to);
      PlacesShift(events, kind, from, to);
      ShiftCounts(later, Matching(events[1..], kind, from, to));
      if 0 in all { assert all == later + {0}; } else { assert all == later; }
    }
  }

  /** Ranges that meet add up: what happens exactly at b counts in the second. */
  lemma RangesAdd(events: seq<Event>, kind: EventType, a: int, b: int, c: int)
    requires a <= b <= c
    ensures CountOf(events, kind, a, c) == CountOf(events, kind, a, b) + CountOf(events, kind, b, c)
  {
    CountIs(events, kind, a, b);
    CountIs(events, kind, b, c);
    CountIs(events, kind, a, c);
    var x, y := Matching(events, kind, a, b), Matching(events, kind, b, c);
    assert Matching(events, kind, a, c) == x + y && x !! y;
  }

  function Min(a: int, b: int): int {
    if a < b then a else b
  }

  function Max(a: int, b: int): int {
    if a < b then b else a
  }

  /** A bucket's count is the overview of the part of the range that lies in it. */
  lemma {:induction false} BucketIsItsOverview(events: seq<Event>, kind: EventType, from: int, to: int, unit: int, q: int)
    requires unit > 0
    ensures BucketCount(events, kind, from, to, unit, unit * q)
      == CountOf(events, kind, Max(from, unit * q), Min(to, unit * q + unit))
    decreases |events|
  {
    if events != [] {
      BucketIsItsOverview(events[1..], kind, from, to, unit, q);
      TruncIs(events[0].at, unit, q);
    }
  }

  lemma TruncIs(at: int, unit: int, q: int)
    requires unit > 0
    ensures Trunc(at, unit) == unit * q <==> unit * q <= at < unit * q + unit
  {
    TruncBounds(at, unit);
    if unit * q <= at < unit * q + unit { QuotientIs(at, unit, q, at - unit * q); }
  }

  // How many buckets a range can touch.

  /** time.Sub saturates. */
  function Sub(to: int, from: int): int {
    if to - from > MAX_DURATION then MAX_DURATION else to - from
  }

  predicate Excessive(from: int, to: int, unit: int)
    requires unit > 0
  {
    Sub(to, from) / unit > MAX_BUCKETS
  }

  lemma TruncBounds(at: int, unit: int)
    requires unit > 0
    ensures Trunc(at, unit) <= at < Trunc(at, unit) + unit
  {
  }

  /** Quotients of a range no longer than n units differ by at most n. */
  lemma QuotientSpread(a: int, b: int, unit: int, n: nat)
    requires unit > 0 && a <= b < a + n * unit
    ensures a / unit <= b / unit <= a / unit + n
  {
    TruncBounds(a, unit);
    TruncBounds(b, unit);
    FactorAtMost(unit, a / unit, b / unit);
    assert unit * (a / unit + n) == unit * (a / unit) + unit * n;
    FactorAtMost(unit, b / unit, a / unit + n);
  }

  function Grid(first: int, unit: int, n: nat): set<Key>
    requires unit > 0
  {
    if n == 0 then {} else Grid(first, unit, n - 1) + {Key(unit * (first + n - 1), 0)}
  }

  lemma {:induction false} GridIs(first: int, unit: int, n: nat, q: int)
    requires unit > 0
    ensures |Grid(first, unit, n)| <= n
    ensures first <= q < first + n ==> Key(unit * q, 0) in Grid(first, unit, n)
  {
    if n > 0 { GridIs(first, unit, n - 1, q); }
  }

  /** A range the first check lets through touches at most 746 buckets: two more
      than the maximum, when neither end is aligned. */
  lemma AtMostTwoMoreBuckets(events: seq<Event>, from: int, to: int, unit: int)
    requires unit in {HOUR, DAY} && from < to && !Excessive(from, to, unit)
    ensures |Buckets(events, from, to, unit)| <= MAX_BUCKETS + 2
  {
    var first := from / unit;
    assert to - from < (MAX_BUCKETS + 1) * unit by { RangeIsShort(from, to, unit); }
    GridIs(first, unit, MAX_BUCKETS + 2, 0);
    forall k | k in Buckets(events, from, to, unit) ensures k in Grid(first, unit, MAX_BUCKETS + 2) {
      var e :| e in events && InRange(e, from, to) && Key(Trunc(e.at, unit), 0) == k;
      QuotientSpread(from, e.at, unit, MAX_BUCKETS + 1);
      GridIs(first, unit, MAX_BUCKETS + 2, e.at / unit);
    }
    SubsetCount(Buckets(events, from, to, unit), Grid(first, unit, MAX_BUCKETS + 2));
  }

  lemma RangeIsShort(from: int, to: int, unit: int)
    requires unit in {HOUR, DAY} && from < to && !Excessive(from, to, unit)
    ensures to - from < (MAX_BUCKETS + 1) * unit
  {
  }

  /** occurred_at has no finer instants. */
  const MICROSECOND: int := 1_000

  function EveryHour(n: nat): seq<Event> {
    seq(n, i => Event(Queued, if i == 0 then HOUR - MICROSECOND else i * HOUR))
  }

  /** And 746 is reached: by an hourly range that starts one microsecond before a
      full hour, with an event in each hour. */
  lemma BoundIsReached()
    ensures var from, to := HOUR - MICROSECOND, 746 * HOUR - 2 * MICROSECOND;
      !Excessive(from, to, HOUR) && |Buckets(EveryHour(746), from, to, HOUR)| == 746
  {
    var from, to := HOUR - MICROSECOND, 746 * HOUR - 2 * MICROSECOND;
    var events := EveryHour(746);
    AtMostTwoMoreBuckets(events, from, to, HOUR);
    forall k | k in Grid(0, HOUR, 746) ensures k in Buckets(events, from, to, HOUR) {
      GridMember(746, k);
      var i :| 0 <= i < 746 && k == Key(HOUR * i, 0);
      var e := events[i];
      assert e in events && InRange(e, from, to);
      QuotientIs(e.at, HOUR, i, e.at - i * HOUR);
    }
    GridCount(746);
    SubsetCount(Grid(0, HOUR, 746), Buckets(events, from, to, HOUR));
  }

  lemma {:induction false} GridMember(n: nat, k: Key)
    requires k in Grid(0, HOUR, n)
    ensures exists i :: 0 <= i < n && k == Key(HOUR * i, 0)
  {
    if k == Key(HOUR * (n - 1), 0) {
      assert 0 <= n - 1 < n;
    } else {
      GridMember(n - 1, k);
      var i :| 0 <= i < n - 1 && k == Key(HOUR * i, 0);
      assert 0 <= i < n;
    }
  }

  lemma {:induction false} GridCount(n: nat)
    ensures |Grid(0, HOUR, n)| == n
  {
    if n > 0 {
      GridCount(n - 1);
      var k := Key(HOUR * (n - 1), 0);
      if k in Grid(0, HOUR, n - 1) {
        GridMember(n - 1, k);
        assert false;
      }
    }
  }

  /** The check made before the query: 745 hours or days, or more. */
  lemma ExcessiveWhen(from: int, to: int, unit: int)
    requires unit in {3_600_000_000_000, 86_400_000_000_000} && from < to
    ensures Excessive(from, to, unit) <==> to - from >= 745 * unit
  {
  }

  // The endpoint's query.

  datatype Bucket = Bucket(start: int, counts: map<EventType, nat>)

  const TYPES := {Queued, Delivered, Deferred, Bounced, Failed, Suppressed, Complained, Opened, Clicked}

  function Overview(events: seq<Event>, from: int, to: int): map<EventType, nat> {
    map kind | kind in TYPES :: CountOf(events, kind, from, to)
  }

  function BucketRow(events: seq<Event>, from: int, to: int, unit: int, bucket: int): Bucket
    requires unit > 0
  {
    Bucket(bucket, map kind | kind in TYPES :: BucketCount(events, kind, from, to, unit, bucket))
  }

  datatype SeriesReply = Series(buckets: seq<Bucket>) | RangeEmpty | UnsupportedInterval | TooManyBuckets

  function Total(buckets: seq<Bucket>, kind: EventType): nat
    requires forall b :: b in buckets ==> kind in b.counts
    decreases |buckets|
  {
    if buckets == [] then 0 else
      assert buckets[0] in buckets && forall b :: b in buckets[1..] ==> b in buckets;
      buckets[0].counts[kind] + Total(buckets[1..], kind)
  }

  lemma {:induction false} TotalIsSum(events: seq<Event>, from: int, to: int, unit: int, rows: seq<Key>, buckets: seq<Bucket>, kind: EventType)
    requires unit > 0 && |buckets| == |rows|
    requires forall i :: 0 <= i < |rows| ==> buckets[i] == BucketRow(events, from, to, unit, rows[i].at)
    ensures (forall b :: b in buckets ==> kind in b.counts) && Total(buckets, kind) == SumOf(events, kind, from, to, unit, rows)
    decreases |rows|
  {
    assert kind in TYPES;
    if rows != [] { TotalIsSum(events, from, to, unit, rows[1..], buckets[1..], kind); }
  }

  /** The series a range has, when it fits. */
  ghost predicate Complete(events: seq<Event>, from: int, to: int, unit: int, buckets: seq<Bucket>)
    requires unit > 0
  {
    && (forall i, j :: 0 <= i < j < |buckets| ==> buckets[i].start < buckets[j].start)
    && (forall b :: b in buckets ==> b == BucketRow(events, from, to, unit, b.start))
    && (forall e :: e in events && InRange(e, from, to) ==> exists b :: b in buckets && b.start == Trunc(e.at, unit))
  }

  ghost predicate AgreesOn(events: seq<Event>, from: int, to: int, buckets: seq<Bucket>, kind: EventType) {
    && (forall b :: b in buckets ==> kind in b.counts)
    && kind in Overview(events, from, to) && Total(buckets, kind) == Overview(events, from, to)[kind]
  }

  ghost predicate Agrees(events: seq<Event>, from: int, to: int, buckets: seq<Bucket>) {
    forall kind: EventType :: AgreesOn(events, from, to, buckets, kind)
  }

  /** A success is the whole series, in order, and adds up to the overview in
      every counter; a failure is for exactly the reasons given. */
  method AnalyticsTimeseries(events: seq<Event>, from: int, to: int, interval: string) returns (reply: SeriesReply)
    ensures reply.RangeEmpty? <==> to <= from
    ensures reply.UnsupportedInterval? <==> from < to && interval != "hour" && interval != "day"
    ensures var unit := if interval == "day" then DAY else HOUR;
      && (reply.TooManyBuckets? <==>
            && from < to && interval in {"hour", "day"}
            && (Excessive(from, to, unit) || |Buckets(events, from, to, unit)| > MAX_BUCKETS))
      && (reply.Series? ==> Complete(events, from, to, unit, reply.buckets))
    ensures reply.Series? ==> Agrees(events, from, to, reply.buckets)
  {
    if to <= from { return RangeEmpty; }
    if interval != "hour" && interval != "day" { return UnsupportedInterval; }
    var unit := HOUR;
    if interval == "day" { unit := DAY; }
    if Sub(to, from) / unit > MAX_BUCKETS { return TooManyBuckets; }
    var rows := QueryRows(events, from, to, unit);
    RowsAreBuckets(events, from, to, unit);
    hide QueryRows, Buckets;
    var buckets := ScanRows(events, from, to, unit, rows);
    if |buckets| > MAX_BUCKETS { return TooManyBuckets; }
    SeriesIsComplete(events, from, to, unit, rows, buckets);
    SeriesAgrees(events, from, to, unit, rows, buckets);
    reply := Series(buckets);
  }

  method ScanRows(events: seq<Event>, from: int, to: int, unit: int, rows: seq<Key>) returns (buckets: seq<Bucket>)
    requires unit > 0
    ensures |buckets| == |rows| && forall j :: 0 <= j < |rows| ==> buckets[j] == BucketRow(events, from, to, unit, rows[j].at)
  {
    buckets := [];
    var i := 0;
    while i < |rows|
      invariant 0 <= i <= |rows| && |buckets| == i
      invariant forall j :: 0 <= j < i ==> buckets[j] == BucketRow(events, from, to, unit, rows[j].at)
    {
      buckets := buckets + [BucketRow(events, from, to, unit, rows[i].at)];
      i := i + 1;
    }
  }

  lemma SeriesAgrees(events: seq<Event>, from: int, to: int, unit: int, rows: seq<Key>, buckets: seq<Bucket>)
    requires unit > 0 && rows == QueryRows(events, from, to, unit) && |rows| == |buckets|
    requires |Buckets(events, from, to, unit)| <= MAX_BUCKETS
    requires forall j :: 0 <= j < |rows| ==> buckets[j] == BucketRow(events, from, to, unit, rows[j].at)
    ensures Agrees(events, from, to, buckets)
  {
    hide QueryRows, Buckets, BucketRow, AgreesOn;
    forall kind: EventType ensures AgreesOn(events, from, to, buckets, kind) {
      KindAgrees(events, from, to, unit, rows, buckets, kind);
    }
  }

  lemma KindAgrees(events: seq<Event>, from: int, to: int, unit: int, rows: seq<Key>, buckets: seq<Bucket>, kind: EventType)
    requires unit > 0 && rows == QueryRows(events, from, to, unit) && |rows| == |buckets|
    requires |Buckets(events, from, to, unit)| <= MAX_BUCKETS
    requires forall j :: 0 <= j < |rows| ==> buckets[j] == BucketRow(events, from, to, unit, rows[j].at)
    ensures AgreesOn(events, from, to, buckets, kind)
  {
    assert kind in TYPES;
    TotalIsSum(events, from, to, unit, rows, buckets, kind);
    RowsSumToOverview(events, kind, from, to, unit);
  }

  lemma SeriesIsComplete(events: seq<Event>, from: int, to: int, unit: int, rows: seq<Key>, buckets: seq<Bucket>)
    requires unit > 0 && rows == QueryRows(events, from, to, unit) && |rows| == |buckets| <= MAX_BUCKETS
    requires forall j :: 0 <= j < |rows| ==> buckets[j] == BucketRow(events, from, to, unit, rows[j].at)
    ensures Complete(events, from, to, unit, buckets)
  {
    RowsAreBuckets(events, from, to, unit);
    forall i, j | 0 <= i < j < |buckets| ensures buckets[i].start < buckets[j].start {
      assert Less(rows[i], rows[j]) && rows[i] in rows && rows[j] in rows;
    }
    forall e | e in events && InRange(e, from, to) ensures exists b :: b in buckets && b.start == Trunc(e.at, unit) {
      var k := Key(Trunc(e.at, unit), 0);
      assert k in Buckets(events, from, to, unit);
      var i :| 0 <= i < |rows| && rows[i] == k;
      assert buckets[i] in buckets;
    }
  }
}
