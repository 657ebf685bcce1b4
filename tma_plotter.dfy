/**
 * Target motion analysis plot data: every target's bearing history is
 * scanned for the overall time range, the range is cut into 5-second
 * buckets, and each reading's bearing is written into its bucket under
 * the target's id.
 *
 * The chart lookup as written keys a reading by its timestamp rounded down
 * to a multiple of 5000 ms, while the buckets are keyed from the earliest
 * reading; `KeyRule` holds both the rule as written and the windowed rule
 * the bucketing evidently intends. `PrepareData` uses the windowed rule.
 */
module Tma {
  import opened SonarTypes
  import opened SonarStore

  /** Bucket width in milliseconds. */
  const BucketSize: int := 5000

  /** A reading together with the id of the target it belongs to. */
  datatype Entry = Entry(id: string, reading: BearingReading)

  /** One chart row: seconds since the first reading, and a bearing per target id. */
  datatype Bucket = Bucket(time: real, bearings: map<string, real>)

  /** How a reading's timestamp is turned into a bucket key. */
  datatype KeyRule =
    | AsWritten   // `Math.floor(timestamp / 5000) * 5000`
    | Windowed    // the start of the 5 s window, counted from the first reading

  function Lookup(m: map<string, real>, id: string): Option<real>
  {
    if id in m then Some(m[id]) else None
  }

  /** A history's readings tagged with their target id. */
  function Tag(id: string, rs: seq<BearingReading>): (r: seq<Entry>)
    ensures |r| == |rs|
    ensures forall j :: 0 <= j < |r| ==> r[j] == Entry(id, rs[j])
  {
    if |rs| == 0 then [] else Tag(id, rs[..|rs| - 1]) + [Entry(id, rs[|rs| - 1])]
  }

  /** All readings in the order the plotter visits them: by target, then by history. */
  function Entries(targets: seq<Target>, h: History): seq<Entry>
  {
    if |targets| == 0 then []
    else
      var t := targets[|targets| - 1];
      Entries(targets[..|targets| - 1], h) + Tag(t.id, HistoryOf(h, t.id))
  }

  /** `minTime = Math.min(minTime, ts); maxTime = Math.max(maxTime, ts)`, with None for the infinite start. */
  function Widen(range: Option<(int, int)>, ts: int): (int, int)
  {
    match range
    case None => (ts, ts)
    case Some((lo, hi)) => (if ts < lo then ts else lo, if ts > hi then ts else hi)
  }

  /** The running (minTime, maxTime) after scanning `es` from `range`; None while both are still infinite. */
  function Scan(range: Option<(int, int)>, es: seq<Entry>): (r: Option<(int, int)>)
    ensures r.None? <==> range.None? && |es| == 0
    ensures (range.Some? ==> range.value.0 <= range.value.1) ==> (r.Some? ==> r.value.0 <= r.value.1)
  {
    if |es| == 0 then range
    else Some(Widen(Scan(range, es[..|es| - 1]), es[|es| - 1].reading.timestamp))
  }

  /** (minTime, maxTime) over all readings, or None when there are none. */
  function TimeRange(es: seq<Entry>): (r: Option<(int, int)>)
    ensures r.None? <==> |es| == 0
    ensures r.Some? ==> r.value.0 <= r.value.1
  {
    Scan(None, es)
  }

  /** Number of keys `minTime, minTime + 5000, …` not beyond `maxTime`. */
  function BucketCount(lo: int, hi: int): nat
    requires lo <= hi
  {
    (hi - lo) / 5000 + 1
  }

  /** The first `n` buckets, bucket k holding `(t - minTime) / 1000` for its key t = minTime + 5000·k. */
  function EmptyBuckets(n: nat): (r: seq<Bucket>)
    ensures |r| == n
  {
    if n == 0 then [] else EmptyBuckets(n - 1) + [Bucket((5000 * (n - 1)) as real / 1000.0, map[])]
  }

  /** The key a reading is looked up under. */
  function Key(rule: KeyRule, ts: int, lo: int): (r: int)
    ensures r <= ts < r + 5000
    ensures rule.AsWritten? ==> r % 5000 == 0
    ensures rule.Windowed? ==> (r - lo) % 5000 == 0
  {
    match rule
    case AsWritten => (ts / 5000) * 5000
    case Windowed => lo + ((ts - lo) / 5000) * 5000
  }

  /** `buckets.get(key)` as an index: the position of `key` among `lo + 5000·k`, k < n. */
  function SlotOf(key: int, lo: int, n: nat): Option<nat>
  {
    if lo <= key && (key - lo) % 5000 == 0 && (key - lo) / 5000 < n
    then Some((key - lo) / 5000)
    else None
  }

  /** Writes one reading's bearing into its bucket, if that bucket exists. */
  function Record(b: seq<Bucket>, e: Entry, lo: int, rule: KeyRule): (r: seq<Bucket>)
    ensures |r| == |b|
  {
    match SlotOf(Key(rule, e.reading.timestamp, lo), lo, |b|)
    case None => b
    case Some(k) => b[k := b[k].(bearings := b[k].bearings[e.id := e.reading.bearing])]
  }

  /** Records every entry in order. */
  function Fill(b: seq<Bucket>, es: seq<Entry>, lo: int, rule: KeyRule): (r: seq<Bucket>)
    ensures |r| == |b|
  {
    if |es| == 0 then b else Record(Fill(b, es[..|es| - 1], lo, rule), es[|es| - 1], lo, rule)
  }

  /** The chart rows `prepareData` returns under the given key rule. */
  function Prepare(targets: seq<Target>, h: History, rule: KeyRule): (r: seq<Bucket>)
    ensures r == [] <==> Entries(targets, h) == []
  {
    var es := Entries(targets, h);
    match TimeRange(es)
    case None => []
    case Some((lo, hi)) => Fill(EmptyBuckets(BucketCount(lo, hi)), es, lo, rule)
  }

  // ---------------------------------------------------------------------
  // Unfolding steps used by the loops
  // ---------------------------------------------------------------------

  lemma TagStep(id: string, rs: seq<BearingReading>, j: nat)
    requires j < |rs|
    ensures Tag(id, rs[..j + 1]) == Tag(id, rs[..j]) + [Entry(id, rs[j])]
  {
    assert rs[..j + 1][..j] == rs[..j];
  }

  lemma EntriesStep(targets: seq<Target>, h: History, i: nat)
    requires i < |targets|
    ensures Entries(targets[..i + 1], h)
            == Entries(targets[..i], h) + Tag(targets[i].id, HistoryOf(h, targets[i].id))
  {
    assert targets[..i + 1][..i] == targets[..i];
  }

  lemma ScanStep(range: Option<(int, int)>, es: seq<Entry>, e: Entry)
    ensures Scan(range, es + [e]) == Some(Widen(Scan(range, es), e.reading.timestamp))
  {
    assert (es + [e])[..|es|] == es;
  }

  lemma FillStep(b: seq<Bucket>, es: seq<Entry>, e: Entry, lo: int, rule: KeyRule)
    ensures Fill(b, es + [e], lo, rule) == Record(Fill(b, es, lo, rule), e, lo, rule)
  {
    assert (es + [e])[..|es|] == es;
  }

  /** Scanning two runs of readings one after the other is scanning them joined. */
  lemma {:induction false} ScanAppend(range: Option<(int, int)>, a: seq<Entry>, c: seq<Entry>)
    ensures Scan(range, a + c) == Scan(Scan(range, a), c)
  {
    if c == [] {
      assert a + c == a;
    } else {
      var front := c[..|c| - 1];
      ScanAppend(range, a, front);
      assert a + c == (a + front) + [c[|c| - 1]];
      ScanStep(range, a + front, c[|c| - 1]);
    }
  }

  /** Filling with two runs of readings one after the other is filling with them joined. */
  lemma {:induction false} FillAppend(b: seq<Bucket>, a: seq<Entry>, c: seq<Entry>, lo: int, rule: KeyRule)
    ensures Fill(b, a + c, lo, rule) == Fill(Fill(b, a, lo, rule), c, lo, rule)
  {
    if c == [] {
      assert a + c == a;
    } else {
      var front := c[..|c| - 1];
      FillAppend(b, a, front, lo, rule);
      assert a + c == (a + front) + [c[|c| - 1]];
      FillStep(b, a + front, c[|c| - 1], lo, rule);
    }
  }

  lemma RecordUnfold(b: seq<Bucket>, e: Entry, lo: int, rule: KeyRule, key: int)
    requires key == Key(rule, e.reading.timestamp, lo)
    ensures Record(b, e, lo, rule)
            == match SlotOf(key, lo, |b|)
               case None => b
               case Some(k) => b[k := b[k].(bearings := b[k].bearings[e.id := e.reading.bearing])]
  {
  }

  // ---------------------------------------------------------------------
  // The plotter
  // ---------------------------------------------------------------------

  /** The inner scan loop: one target's readings widen the running range. */
  method ScanHistory(range: Option<(int, int)>, id: string, history: seq<BearingReading>)
      returns (widened: Option<(int, int)>)
    ensures widened == Scan(range, Tag(id, history))
  {
    widened := range;
    var j := 0;
    while j < |history|
      invariant 0 <= j <= |history|
      invariant widened == Scan(range, Tag(id, history[..j]))
    {
      TagStep(id, history, j);
      ScanStep(range, Tag(id, history[..j]), Entry(id, history[j]));
      widened := Some(Widen(widened, history[j].timestamp));
      j := j + 1;
    }
    assert history[..|history|] == history;
  }

  /** The first loop of `prepareData`: the earliest and latest timestamp over all histories. */
  method ScanTimeRange(targets: seq<Target>, h: History) returns (range: Option<(int, int)>)
    ensures range == TimeRange(Entries(targets, h))
  {
    range := None;
    var i := 0;
    while i < |targets|
      invariant 0 <= i <= |targets|
      invariant range == Scan(None, Entries(targets[..i], h))
    {
      var id := targets[i].id;
      range := ScanHistory(range, id, HistoryOf(h, id));
      ScanAppend(None, Entries(targets[..i], h), Tag(id, HistoryOf(h, id)));
      EntriesStep(targets, h, i);
      i := i + 1;
    }
    assert targets[..|targets|] == targets;
  }

  /** The bucket loop: one empty bucket per key `lo, lo + 5000, …` not beyond `hi`. */
  method LayOutBuckets(lo: int, hi: int) returns (buckets: seq<Bucket>)
    requires lo <= hi
    ensures buckets == EmptyBuckets(BucketCount(lo, hi))
  {
    buckets := [];
    var t := lo;
    while t <= hi
      invariant t == lo + 5000 * |buckets|
      invariant |buckets| <= (hi - lo) / 5000 + 1
      invariant buckets == EmptyBuckets(|buckets|)
      decreases hi - t
    {
      buckets := buckets + [Bucket((t - lo) as real / 1000.0, map[])];
      t := t + 5000;
    }
  }

  /** `bucket[target.id] = reading.bearing` for the bucket keyed by the reading's window, if there is one. */
  method RecordReading(buckets: seq<Bucket>, id: string, reading: BearingReading, lo: int) returns (updated: seq<Bucket>)
    ensures updated == Record(buckets, Entry(id, reading), lo, Windowed)
  {
    var bucketTime := Key(Windowed, reading.timestamp, lo);
    var slot := SlotOf(bucketTime, lo, |buckets|);
    updated := buckets;
    if slot.Some? {
      var k := slot.value;
      updated := buckets[k := buckets[k].(bearings := buckets[k].bearings[id := reading.bearing])];
    }
    RecordUnfold(buckets, Entry(id, reading), lo, Windowed, bucketTime);
  }

  /** The inner fill loop: one target's readings, in history order. */
  method FillHistory(buckets: seq<Bucket>, id: string, history: seq<BearingReading>, lo: int)
      returns (updated: seq<Bucket>)
    ensures updated == Fill(buckets, Tag(id, history), lo, Windowed)
  {
    updated := buckets;
    var j := 0;
    while j < |history|
      invariant 0 <= j <= |history|
      invariant updated == Fill(buckets, Tag(id, history[..j]), lo, Windowed)
    {
      TagStep(id, history, j);
      FillStep(buckets, Tag(id, history[..j]), Entry(id, history[j]), lo, Windowed);
      updated := RecordReading(updated, id, history[j], lo);
      j := j + 1;
    }
    assert history[..|history|] == history;
  }

  /** The fill loop: every reading's bearing goes into its window's bucket under its target's id. */
  method FillBearings(targets: seq<Target>, h: History, empty: seq<Bucket>, lo: int) returns (buckets: seq<Bucket>)
    ensures buckets == Fill(empty, Entries(targets, h), lo, Windowed)
  {
    buckets := empty;
    var i := 0;
    while i < |targets|
      invariant 0 <= i <= |targets|
      invariant buckets == Fill(empty, Entries(targets[..i], h), lo, Windowed)
    {
      var id := targets[i].id;
      buckets := FillHistory(buckets, id, HistoryOf(h, id), lo);
      FillAppend(empty, Entries(targets[..i], h), Tag(id, HistoryOf(h, id)), lo, Windowed);
      EntriesStep(targets, h, i);
      i := i + 1;
    }
    assert targets[..|targets|] == targets;
  }

  /**
   * `prepareData`: scans every target's history for the time range, lays
   * out the 5 s buckets and fills in the bearings, keying each reading by
   * its window from the first reading.
   */
  method PrepareData(targets: seq<Target>, h: History) returns (result: seq<Bucket>)
    ensures result == Prepare(targets, h, Windowed)
  {
    var range := ScanTimeRange(targets, h);
    if range.None? {
      return [];
    }
    var lo, hi := range.value.0, range.value.1;
    var empty := LayOutBuckets(lo, hi);
    result := FillBearings(targets, h, empty, lo);
  }

  // ---------------------------------------------------------------------
  // Properties
  // ---------------------------------------------------------------------

  /** The scanned range is exactly the earliest and the latest timestamp. */
  lemma {:induction false} TimeRangeExtremes(es: seq<Entry>)
    ensures TimeRange(es).Some? ==>
              var (lo, hi) := TimeRange(es).value;
              && (forall j :: 0 <= j < |es| ==> lo <= es[j].reading.timestamp <= hi)
              && (exists j :: 0 <= j < |es| && es[j].reading.timestamp == lo)
              && (exists j :: 0 <= j < |es| && es[j].reading.timestamp == hi)
  {
    if |es| > 0 {
      var front := es[..|es| - 1];
      TimeRangeExtremes(front);
      var last := |es| - 1;
      assert forall j :: 0 <= j < |front| ==> front[j] == es[j];
      if TimeRange(front).Some? {
        var (lo0, hi0) := TimeRange(front).value;
        var j0 :| 0 <= j0 < |front| && front[j0].reading.timestamp == lo0;
        var j1 :| 0 <= j1 < |front| && front[j1].reading.timestamp == hi0;
        var (lo, hi) := TimeRange(es).value;
        assert es[if lo == lo0 then j0 else last].reading.timestamp == lo;
        assert es[if hi == hi0 then j1 else last].reading.timestamp == hi;
      } else {
        assert es[last].reading.timestamp == TimeRange(es).value.0;
      }
    }
  }

  /** Every target's history is part of the readings the plotter visits. */
  lemma {:induction false} EntriesCoverHistory(targets: seq<Target>, h: History, i: nat)
    requires i < |targets|
    ensures |HistoryOf(h, targets[i].id)| <= |Entries(targets, h)|
  {
    var front := targets[..|targets| - 1];
    var last := targets[|targets| - 1];
    assert Entries(targets, h) == Entries(front, h) + Tag(last.id, HistoryOf(h, last.id));
    if i < |front| {
      EntriesCoverHistory(front, h, i);
      assert front[i] == targets[i];
    }
  }

  /** Targets whose histories are all empty contribute no readings. */
  lemma {:induction false} SilentTargetsNoEntries(targets: seq<Target>, h: History)
    requires forall i :: 0 <= i < |targets| ==> |HistoryOf(h, targets[i].id)| == 0
    ensures |Entries(targets, h)| == 0
  {
    if |targets| > 0 {
      var front := targets[..|targets| - 1];
      forall i | 0 <= i < |front|
        ensures |HistoryOf(h, front[i].id)| == 0
      {
        assert front[i] == targets[i];
      }
      SilentTargetsNoEntries(front, h);
    }
  }

  /** There are no readings at all exactly when every target's history is empty. */
  lemma NoEntriesIff(targets: seq<Target>, h: History)
    ensures |Entries(targets, h)| == 0 <==>
              forall i :: 0 <= i < |targets| ==> |HistoryOf(h, targets[i].id)| == 0
  {
    forall i | 0 <= i < |targets|
      ensures |HistoryOf(h, targets[i].id)| <= |Entries(targets, h)|
    {
      EntriesCoverHistory(targets, h, i);
    }
    if forall i :: 0 <= i < |targets| ==> |HistoryOf(h, targets[i].id)| == 0 {
      SilentTargetsNoEntries(targets, h);
    }
  }

  /** `minTime + 5000·(n - 1) <= maxTime < minTime + 5000·n` for the n buckets laid out. */
  lemma BucketCountCovers(lo: int, hi: int)
    requires lo <= hi
    ensures lo + 5000 * (BucketCount(lo, hi) - 1) <= hi < lo + 5000 * BucketCount(lo, hi)
  {
  }

  /** A key names bucket k exactly when it is `minTime + 5000·k` for some k below the count. */
  lemma SlotOfKeys(key: int, lo: int, n: nat, k: nat)
    ensures SlotOf(key, lo, n) == Some(k) <==> k < n && key == lo + 5000 * k
  {
    if k < n && key == lo + 5000 * k {
      ModUnique(key - lo, 5000, k, 0);
    }
  }

  lemma {:induction false} EmptyBucketsShape(n: nat)
    ensures forall k :: 0 <= k < n ==>
              EmptyBuckets(n)[k].time == (5 * k) as real && EmptyBuckets(n)[k].bearings == map[]
  {
    if n > 0 {
      EmptyBucketsShape(n - 1);
    }
  }

  /** Writing bearings never moves a bucket in time. */
  lemma {:induction false} FillKeepsTimes(b: seq<Bucket>, es: seq<Entry>, lo: int, rule: KeyRule)
    ensures forall k :: 0 <= k < |b| ==> Fill(b, es, lo, rule)[k].time == b[k].time
  {
    if |es| > 0 {
      FillKeepsTimes(b, es[..|es| - 1], lo, rule);
    }
  }

  /**
   * One row per key `minTime + 5000·k`, k = 0 … (maxTime - minTime) / 5000,
   * and row k is at 5·k seconds, so the rows ascend in time.
   */
  lemma BucketTimes(targets: seq<Target>, h: History, rule: KeyRule)
    ensures var r := Prepare(targets, h, rule);
            && (TimeRange(Entries(targets, h)).Some? ==>
                  var (lo, hi) := TimeRange(Entries(targets, h)).value;
                  |r| == (hi - lo) / 5000 + 1)
            && (forall k :: 0 <= k < |r| ==> r[k].time == (5 * k) as real)
            && (forall k, l :: 0 <= k < l < |r| ==> r[k].time < r[l].time)
  {
    var es := Entries(targets, h);
    if TimeRange(es).Some? {
      var (lo, hi) := TimeRange(es).value;
      EmptyBucketsShape(BucketCount(lo, hi));
      FillKeepsTimes(EmptyBuckets(BucketCount(lo, hi)), es, lo, rule);
    }
  }

  /** Whether entry `e` writes target `id` into bucket `k` of `n`. */
  predicate Lands(e: Entry, id: string, k: nat, lo: int, n: nat, rule: KeyRule)
  {
    e.id == id && SlotOf(Key(rule, e.reading.timestamp, lo), lo, n) == Some(k)
  }

  lemma RecordElsewhere(b: seq<Bucket>, e: Entry, lo: int, rule: KeyRule, k: nat, id: string)
    requires k < |b| && !Lands(e, id, k, lo, |b|, rule)
    ensures Lookup(Record(b, e, lo, rule)[k].bearings, id) == Lookup(b[k].bearings, id)
  {
  }

  /** A (target, bucket) pair no reading lands on keeps what it held before the fill. */
  lemma {:induction false} FillUntouched(b: seq<Bucket>, es: seq<Entry>, lo: int, rule: KeyRule, k: nat, id: string)
    requires k < |b|
    requires forall j :: 0 <= j < |es| ==> !Lands(es[j], id, k, lo, |b|, rule)
    ensures Lookup(Fill(b, es, lo, rule)[k].bearings, id) == Lookup(b[k].bearings, id)
  {
    if |es| > 0 {
      var front := es[..|es| - 1];
      assert forall j :: 0 <= j < |front| ==> front[j] == es[j];
      FillUntouched(b, front, lo, rule, k, id);
      RecordElsewhere(Fill(b, front, lo, rule), es[|es| - 1], lo, rule, k, id);
    }
  }

  /** The last reading of a target that lands in a bucket is the bearing the bucket shows. */
  lemma {:induction false} FillLastWins(b: seq<Bucket>, es: seq<Entry>, lo: int, rule: KeyRule, k: nat, id: string, j: nat)
    requires k < |b| && j < |es| && Lands(es[j], id, k, lo, |b|, rule)
    requires forall j' :: j < j' < |es| ==> !Lands(es[j'], id, k, lo, |b|, rule)
    ensures Lookup(Fill(b, es, lo, rule)[k].bearings, id) == Some(es[j].reading.bearing)
  {
    var front := es[..|es| - 1];
    if j < |es| - 1 {
      assert forall i :: 0 <= i < |front| ==> front[i] == es[i];
      FillLastWins(b, front, lo, rule, k, id, j);
      RecordElsewhere(Fill(b, front, lo, rule), es[|es| - 1], lo, rule, k, id);
    }
  }

  /** The window a timestamp falls in, counted in 5 s steps from the first reading. */
  function Window(ts: int, lo: int): int
  {
    (ts - lo) / 5000
  }

  /** Under the windowed rule every in-range reading finds its window's bucket. */
  lemma WindowedSlot(ts: int, lo: int, hi: int)
    requires lo <= ts <= hi
    ensures 0 <= Window(ts, lo) < BucketCount(lo, hi)
    ensures SlotOf(Key(Windowed, ts, lo), lo, BucketCount(lo, hi)) == Some(Window(ts, lo))
  {
    var q := Window(ts, lo);
    ModUnique(q * 5000, 5000, q, 0);
  }

  predicate InRange(es: seq<Entry>, lo: int, hi: int)
  {
    forall j :: 0 <= j < |es| ==> lo <= es[j].reading.timestamp <= hi
  }

  /** Under windowed keys, each reading's id appears in its window's row. */
  lemma WindowedRecorded(es: seq<Entry>, lo: int, hi: int)
    requires lo <= hi && InRange(es, lo, hi)
    ensures var r := Fill(EmptyBuckets(BucketCount(lo, hi)), es, lo, Windowed);
            forall j :: 0 <= j < |es| ==>
              0 <= Window(es[j].reading.timestamp, lo) < |r|
              && es[j].id in r[Window(es[j].reading.timestamp, lo)].bearings
  {
    var n := BucketCount(lo, hi);
    forall j | 0 <= j < |es|
      ensures 0 <= Window(es[j].reading.timestamp, lo) < n
      ensures es[j].id in Fill(EmptyBuckets(n), es, lo, Windowed)[Window(es[j].reading.timestamp, lo)].bearings
    {
      WindowedSlot(es[j].reading.timestamp, lo, hi);
      var k := Window(es[j].reading.timestamp, lo) as nat;
      var last := LastLanding(es, es[j].id, k, lo, n, j);
      FillLastWins(EmptyBuckets(n), es, lo, Windowed, k, es[j].id, last);
    }
  }

  /** Under windowed keys, a row shows a target's latest reading in that window. */
  lemma WindowedLatest(es: seq<Entry>, lo: int, hi: int)
    requires lo <= hi && InRange(es, lo, hi)
    ensures var r := Fill(EmptyBuckets(BucketCount(lo, hi)), es, lo, Windowed);
            forall j :: 0 <= j < |es|
              && (forall j' :: j < j' < |es| && es[j'].id == es[j].id ==>
                    Window(es[j'].reading.timestamp, lo) != Window(es[j].reading.timestamp, lo))
              ==> Lookup(r[Window(es[j].reading.timestamp, lo)].bearings, es[j].id) == Some(es[j].reading.bearing)
  {
    var n := BucketCount(lo, hi);
    forall j | 0 <= j < |es|
      && (forall j' :: j < j' < |es| && es[j'].id == es[j].id ==>
            Window(es[j'].reading.timestamp, lo) != Window(es[j].reading.timestamp, lo))
      ensures 0 <= Window(es[j].reading.timestamp, lo) < n
      ensures Lookup(Fill(EmptyBuckets(n), es, lo, Windowed)[Window(es[j].reading.timestamp, lo)].bearings, es[j].id)
              == Some(es[j].reading.bearing)
    {
      WindowedSlot(es[j].reading.timestamp, lo, hi);
      var k := Window(es[j].reading.timestamp, lo) as nat;
      forall j' | j < j' < |es|
        ensures !Lands(es[j'], es[j].id, k, lo, n, Windowed)
      {
        WindowedSlot(es[j'].reading.timestamp, lo, hi);
      }
      FillLastWins(EmptyBuckets(n), es, lo, Windowed, k, es[j].id, j);
    }
  }

  /** Under windowed keys, a row only shows targets with a reading in its window. */
  lemma WindowedOnlyReadings(es: seq<Entry>, lo: int, hi: int)
    requires lo <= hi && InRange(es, lo, hi)
    ensures var r := Fill(EmptyBuckets(BucketCount(lo, hi)), es, lo, Windowed);
            forall k, id :: 0 <= k < |r| && id in r[k].bearings ==>
              exists j :: 0 <= j < |es| && es[j].id == id && Window(es[j].reading.timestamp, lo) == k
  {
    var n := BucketCount(lo, hi);
    var r := Fill(EmptyBuckets(n), es, lo, Windowed);
    EmptyBucketsShape(n);
    forall k, id | 0 <= k < |r| && id in r[k].bearings
      ensures exists j :: 0 <= j < |es| && es[j].id == id && Window(es[j].reading.timestamp, lo) == k
    {
      if forall j :: 0 <= j < |es| ==> !Lands(es[j], id, k, lo, n, Windowed) {
        FillUntouched(EmptyBuckets(n), es, lo, Windowed, k, id);
      } else {
        var j :| 0 <= j < |es| && Lands(es[j], id, k, lo, n, Windowed);
        WindowedSlot(es[j].reading.timestamp, lo, hi);
      }
    }
  }

  /**
   * With windowed keys every reading reaches the chart: its target's id
   * appears in its window's row, the row shows the target's latest reading
   * in that window, and a row only shows targets with a reading in it.
   */
  lemma WindowedRecordsEveryReading(targets: seq<Target>, h: History, lo: int, hi: int)
    requires TimeRange(Entries(targets, h)) == Some((lo, hi))
    ensures var es := Entries(targets, h);
            var r := Prepare(targets, h, Windowed);
            && (forall j :: 0 <= j < |es| ==>
                  0 <= Window(es[j].reading.timestamp, lo) < |r|
                  && es[j].id in r[Window(es[j].reading.timestamp, lo)].bearings)
            && (forall j :: 0 <= j < |es|
                  && (forall j' :: j < j' < |es| && es[j'].id == es[j].id ==>
                        Window(es[j'].reading.timestamp, lo) != Window(es[j].reading.timestamp, lo))
                  ==> Lookup(r[Window(es[j].reading.timestamp, lo)].bearings, es[j].id) == Some(es[j].reading.bearing))
            && (forall k, id :: 0 <= k < |r| && id in r[k].bearings ==>
                  exists j :: 0 <= j < |es| && es[j].id == id && Window(es[j].reading.timestamp, lo) == k)
  {
    var es := Entries(targets, h);
    PreparedBuckets(targets, h, Windowed, lo, hi);
    WindowedRecorded(es, lo, hi);
    WindowedLatest(es, lo, hi);
    WindowedOnlyReadings(es, lo, hi);
  }

  /** With readings between `lo` and `hi`, the rows are the buckets of that range filled in order. */
  lemma PreparedBuckets(targets: seq<Target>, h: History, rule: KeyRule, lo: int, hi: int)
    requires TimeRange(Entries(targets, h)) == Some((lo, hi))
    ensures lo <= hi && InRange(Entries(targets, h), lo, hi)
    ensures Prepare(targets, h, rule) == Fill(EmptyBuckets(BucketCount(lo, hi)), Entries(targets, h), lo, rule)
  {
    TimeRangeExtremes(Entries(targets, h));
  }

  /** Among the entries landing where entry `j` lands, the last one. */
  lemma {:induction false} LastLanding(es: seq<Entry>, id: string, k: nat, lo: int, n: nat, j: nat) returns (last: nat)
    requires j < |es| && Lands(es[j], id, k, lo, n, Windowed)
    ensures j <= last < |es| && Lands(es[last], id, k, lo, n, Windowed)
    ensures forall j' :: last < j' < |es| ==> !Lands(es[j'], id, k, lo, n, Windowed)
    decreases |es| - j
  {
    if exists j' :: j < j' < |es| && Lands(es[j'], id, k, lo, n, Windowed) {
      var j' :| j < j' < |es| && Lands(es[j'], id, k, lo, n, Windowed);
      last := LastLanding(es, id, k, lo, n, j');
    } else {
      last := j;
    }
  }

  // ---------------------------------------------------------------------
  // The lookup as written
  // ---------------------------------------------------------------------

  /**
   * A key rounded to a multiple of 5000 is never `minTime + 5000·k` when
   * minTime itself is not a multiple of 5000.
   */
  lemma AsWrittenMissesUnaligned(ts: int, lo: int, n: nat)
    requires lo % 5000 != 0
    ensures SlotOf(Key(AsWritten, ts, lo), lo, n) == None
  {
    var q, p, rem := ts / 5000, lo / 5000, lo % 5000;
    ModUnique(Key(AsWritten, ts, lo) - lo, 5000, q - p - 1, 5000 - rem);
  }

  lemma {:induction false} FillNothingLands(b: seq<Bucket>, es: seq<Entry>, lo: int, rule: KeyRule)
    requires forall j :: 0 <= j < |es| ==> SlotOf(Key(rule, es[j].reading.timestamp, lo), lo, |b|) == None
    ensures Fill(b, es, lo, rule) == b
  {
    if |es| > 0 {
      var front := es[..|es| - 1];
      assert forall j :: 0 <= j < |front| ==> front[j] == es[j];
      FillNothingLands(b, front, lo, rule);
    }
  }

  /**
   * As written, when the earliest reading is not on a 5000 ms boundary the
   * chart gets its rows but not a single bearing.
   */
  lemma AsWrittenDropsEveryBearing(targets: seq<Target>, h: History)
    ensures var es := Entries(targets, h);
            var r := Prepare(targets, h, AsWritten);
            es != [] && TimeRange(es).value.0 % 5000 != 0 ==>
              |r| > 0 && forall k :: 0 <= k < |r| ==> r[k].bearings == map[]
  {
    var es := Entries(targets, h);
    if es != [] && TimeRange(es).value.0 % 5000 != 0 {
      var (lo, hi) := TimeRange(es).value;
      var n := BucketCount(lo, hi);
      forall j | 0 <= j < |es|
        ensures SlotOf(Key(AsWritten, es[j].reading.timestamp, lo), lo, n) == None
      {
        AsWrittenMissesUnaligned(es[j].reading.timestamp, lo, n);
      }
      FillNothingLands(EmptyBuckets(n), es, lo, AsWritten);
      EmptyBucketsShape(n);
    }
  }

  /**
   * One target "a" with readings at 1001 ms and 7003 ms: two rows, at 0 s
   * and 5 s. As written both rows are empty; with windowed keys they show
   * bearings 10 and 20.
   */
  lemma UnalignedHistoryExample(t: Target)
    requires t.id == "a"
    ensures var h := map["a" := [BearingReading(1001, 10.0, 1.0), BearingReading(7003, 20.0, 1.0)]];
            && Prepare([t], h, AsWritten) == [Bucket(0.0, map[]), Bucket(5.0, map[])]
            && Prepare([t], h, Windowed) == [Bucket(0.0, map["a" := 10.0]), Bucket(5.0, map["a" := 20.0])]
  {
    var h := map["a" := [BearingReading(1001, 10.0, 1.0), BearingReading(7003, 20.0, 1.0)]];
    var es := [Entry("a", h["a"][0]), Entry("a", h["a"][1])];
    assert Entries([t], h) == es by {
      assert [t][..0] == [];
      assert Tag("a", h["a"]) == es;
    }
    assert TimeRange(es) == Some((1001, 7003)) by {
      assert es[..1] == [es[0]];
      assert es[..1][..0] == [];
      assert Scan(None, es[..1]) == Some((1001, 1001));
    }
    var b := EmptyBuckets(2);
    assert b == [Bucket(0.0, map[]), Bucket(5.0, map[])];
    assert es[..1] == [es[0]] && es[..1][..0] == [];
    assert Key(AsWritten, 1001, 1001) == 0 && Key(AsWritten, 7003, 1001) == 5000;
    assert SlotOf(0, 1001, 2) == None && SlotOf(5000, 1001, 2) == None;
    assert Fill(b, es[..1], 1001, AsWritten) == b;
    assert Fill(b, es, 1001, AsWritten) == b;
    assert Key(Windowed, 1001, 1001) == 1001 && Key(Windowed, 7003, 1001) == 6001;
    assert SlotOf(1001, 1001, 2) == Some(0) && SlotOf(6001, 1001, 2) == Some(1);
    assert Fill(b, es[..1], 1001, Windowed) == [Bucket(0.0, map["a" := 10.0]), Bucket(5.0, map[])];
    assert Fill(b, es, 1001, Windowed) == [Bucket(0.0, map["a" := 10.0]), Bucket(5.0, map["a" := 20.0])];
  }
}
