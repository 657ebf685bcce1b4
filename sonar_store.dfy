/**
 * The simulation store: the target list, per-target bearing histories, the
 * LOFAR history, the listener, and the per-frame tick that moves every
 * target, recomputes range, bearing and SNR, advances classification and
 * records bearing fixes.
 */
module SonarStore {
  import opened SonarTypes

  /** Readings kept per target (`slice(-200)` after the append). */
  const BearingCapacity: nat := 200
  /** Old LOFAR lines kept before the new one is appended (`slice(-100)`). */
  const LofarKeep: nat := 100
  const DetectionThreshold: real := 5.0
  /** Probability that a detected target yields a bearing fix in one tick. */
  const FixProbability: real := 0.3

  datatype LofarRecord = LofarRecord(frequencies: seq<real>, magnitudes: seq<real>, timestamp: int)

  /** The two `Math.random()` values a tick may draw for one target. */
  datatype Draw = Draw(gate: real, jitter: real)
  {
    predicate Valid() { 0.0 <= gate < 1.0 && 0.0 <= jitter < 1.0 }
  }

  type History = map<string, seq<BearingReading>>

  function DefaultSignature(): Signature
  {
    Signature(60.0, [120.0, 180.0, 240.0], 4, 120.0, 0.3, UnknownVessel, "Unknown")
  }

  function CreateDefaultTarget(id: string, x: real, z: real): Target
  {
    Target(id, Vec3(x, -50.0, z), Vec3(2.0, 0.0, 0.0), 90.0, 10.0, 50.0,
           DefaultSignature(), false, Undetected)
  }

  const InitialListener: Vec3 := Vec3(0.0, -30.0, 0.0)

  // ---------------------------------------------------------------------
  // Kinematics and propagation
  // ---------------------------------------------------------------------

  /** Position after moving with velocity `v` for `timeScale` (timeCompression × deltaTime) seconds. */
  function Advance(p: Vec3, v: Vec3, timeScale: real): Vec3
  {
    Vec3(p.x + v.x * timeScale, p.y + v.y * timeScale, p.z + v.z * timeScale)
  }

  /** Squared horizontal (x/z) range from the listener to `p`. */
  function RangeSquared(listener: Vec3, p: Vec3): (r: real)
    ensures 0.0 <= r
  {
    var dx := p.x - listener.x;
    var dz := p.z - listener.z;
    SquareNonNegative(dx);
    SquareNonNegative(dz);
    dx * dx + dz * dz
  }

  /** The store's SNR model: loudness over a linear function of range. */
  function Snr(cavitation: real, distance: real): real
    requires 0.0 <= distance
  {
    cavitation * 1000.0 / (distance * 0.1 + 1.0)
  }

  /**
   * `(atan2 + 360) % 360` for an angle already in [0, 720), which is where
   * atan2 in [-180, 180] puts it; `BearingIsJsRemainder` shows the two agree.
   */
  function Wrap360(x: real): real
  {
    if x >= 360.0 then x - 360.0 else x
  }

  lemma BearingIsJsRemainder(a: real)
    requires -180.0 <= a <= 180.0
    ensures Wrap360(a + 360.0) == JsRem(a + 360.0, 360.0)
    ensures 0.0 <= Wrap360(a + 360.0) < 360.0
  {
    var x := a + 360.0;
    var q := (x / 360.0).Floor;
    if x >= 360.0 {
      assert 1.0 <= x / 360.0 < 2.0;
      assert q == 1;
    } else {
      assert 0.0 <= x / 360.0 < 1.0;
      assert q == 0;
    }
  }

  /** Range, bearing and SNR of a target seen from the listener. */
  datatype Contact = Contact(bearing: real, distance: real, snr: real, detected: bool)

  function Sense(m: MathLib, listener: Vec3, p: Vec3, cavitation: real): (c: Contact)
    requires m.Valid()
    ensures 0.0 <= c.bearing < 360.0
  {
    var dx := p.x - listener.x;
    var dz := p.z - listener.z;
    var bearing := Wrap360(m.atan2Deg(dx, dz) + 360.0);
    var distance := m.sqrt(RangeSquared(listener, p));
    var snr := Snr(cavitation, distance);
    Contact(bearing, distance, snr, snr > DetectionThreshold)
  }

  /**
   * The sensed bearing is the host's `(atan2 + 360) % 360` and the sensed
   * distance is the non-negative root of the squared horizontal range.
   */
  lemma SenseGeometry(m: MathLib, listener: Vec3, p: Vec3, cavitation: real)
    requires m.Valid()
    ensures var c := Sense(m, listener, p, cavitation);
            && c.bearing == JsRem(m.atan2Deg(p.x - listener.x, p.z - listener.z) + 360.0, 360.0)
            && 0.0 <= c.distance && c.distance * c.distance == RangeSquared(listener, p)
  {
    BearingIsJsRemainder(m.atan2Deg(p.x - listener.x, p.z - listener.z));
  }

  /** What the listener senses of `t` after it has moved for `timeScale`. */
  function Observe(t: Target, listener: Vec3, timeScale: real, m: MathLib): Contact
    requires m.Valid()
  {
    Sense(m, listener, Advance(t.position, t.velocity, timeScale), t.signature.cavitationLevel)
  }

  /** One target after a tick (the body of the `map` callback in `update`). */
  function TickTarget(t: Target, listener: Vec3, timeScale: real, m: MathLib): (r: Target)
    requires m.Valid()
    ensures r.id == t.id && r.velocity == t.velocity && r.depth == t.depth && r.signature == t.signature
    ensures Rank(r.classification) >= Rank(t.classification)
  {
    var c := Observe(t, listener, timeScale, m);
    t.(position := Advance(t.position, t.velocity, timeScale),
       course := m.atan2Deg(t.velocity.x, t.velocity.z),
       speed := m.sqrt(t.velocity.x * t.velocity.x + t.velocity.z * t.velocity.z),
       detected := c.detected,
       classification := if c.detected && t.classification == Undetected then Detected
                         else t.classification)
  }

  /** `state.targets.map(...)`: every target ticked, in order. */
  function TickAll(ts: seq<Target>, listener: Vec3, timeScale: real, m: MathLib): (r: seq<Target>)
    requires m.Valid()
    ensures |r| == |ts|
  {
    if ts == [] then []
    else TickAll(ts[..|ts| - 1], listener, timeScale, m) + [TickTarget(ts[|ts| - 1], listener, timeScale, m)]
  }

  // ---------------------------------------------------------------------
  // Bearing history
  // ---------------------------------------------------------------------

  /** The bearing fix a tick records for a target, if any. */
  function FixOf(c: Contact, d: Draw, now: int): (r: Option<BearingReading>)
    ensures r.Some? <==> c.detected && d.gate < FixProbability
    ensures r.Some? ==> r.value.timestamp == now
  {
    if c.detected && d.gate < FixProbability then
      Some(BearingReading(now, c.bearing + (d.jitter - 0.5) * 5.0, Min(c.snr / 20.0, 1.0)))
    else None
  }

  /** `history.get(id) || []`. */
  function HistoryOf(h: History, id: string): seq<BearingReading>
  {
    if id in h then h[id] else []
  }

  /** `[...readings, reading].slice(-200)` stored back under `id`. */
  function AppendReading(h: History, id: string, r: BearingReading): History
  {
    h[id := LastN(HistoryOf(h, id) + [r], BearingCapacity)]
  }

  function RecordFix(h: History, id: string, fix: Option<BearingReading>): History
  {
    match fix
    case None => h
    case Some(r) => AppendReading(h, id, r)
  }

  /** The bearing history after the tick has visited the first `n` targets. */
  function RecordFixes(h: History, ts: seq<Target>, listener: Vec3, timeScale: real, m: MathLib,
                       draws: seq<Draw>, now: int, n: nat): History
    requires m.Valid() && n <= |ts| && n <= |draws|
  {
    if n == 0 then h
    else
      RecordFix(RecordFixes(h, ts, listener, timeScale, m, draws, now, n - 1), ts[n - 1].id,
                FixOf(Observe(ts[n - 1], listener, timeScale, m), draws[n - 1], now))
  }

  ghost predicate Bounded(h: History)
  {
    forall id :: id in h ==> |h[id]| <= BearingCapacity
  }

  // ---------------------------------------------------------------------
  // Whole-list rewrites
  // ---------------------------------------------------------------------

  function Reposition(ts: seq<Target>, id: string, p: Vec3, v: Vec3): seq<Target>
  {
    if ts == [] then []
    else Reposition(ts[..|ts| - 1], id, p, v)
         + [var t := ts[|ts| - 1]; if t.id == id then t.(position := p, velocity := v) else t]
  }

  function Reclassify(ts: seq<Target>, id: string, c: Classification): seq<Target>
  {
    if ts == [] then []
    else Reclassify(ts[..|ts| - 1], id, c)
         + [var t := ts[|ts| - 1]; if t.id == id then t.(classification := c) else t]
  }

  lemma TickAllStep(ts: seq<Target>, i: nat, listener: Vec3, timeScale: real, m: MathLib)
    requires m.Valid() && i < |ts|
    ensures TickAll(ts[..i + 1], listener, timeScale, m)
            == TickAll(ts[..i], listener, timeScale, m) + [TickTarget(ts[i], listener, timeScale, m)]
  {
    assert ts[..i + 1][..i] == ts[..i];
  }

  lemma RecordFixesStep(h: History, ts: seq<Target>, listener: Vec3, timeScale: real, m: MathLib,
                        draws: seq<Draw>, now: int, i: nat)
    requires m.Valid() && i < |ts| && i < |draws|
    ensures RecordFixes(h, ts, listener, timeScale, m, draws, now, i + 1)
            == RecordFix(RecordFixes(h, ts, listener, timeScale, m, draws, now, i), ts[i].id,
                         FixOf(Observe(ts[i], listener, timeScale, m), draws[i], now))
  {
  }

  /**
   * The loop of `update`: visits the targets in order, records each bearing
   * fix as it goes and collects the ticked targets.
   */
  method TickLoop(ts: seq<Target>, h: History, listener: Vec3, timeScale: real, m: MathLib,
                  draws: seq<Draw>, now: int)
      returns (updated: seq<Target>, h': History)
    requires m.Valid() && |draws| == |ts|
    ensures updated == TickAll(ts, listener, timeScale, m)
    ensures h' == RecordFixes(h, ts, listener, timeScale, m, draws, now, |ts|)
  {
    updated, h' := [], h;
    var i := 0;
    while i < |ts|
      invariant 0 <= i <= |ts|
      invariant updated == TickAll(ts[..i], listener, timeScale, m)
      invariant h' == RecordFixes(h, ts, listener, timeScale, m, draws, now, i)
    {
      var t := ts[i];
      var fix := FixOf(Observe(t, listener, timeScale, m), draws[i], now);
      RecordFixesStep(h, ts, listener, timeScale, m, draws, now, i);
      TickAllStep(ts, i, listener, timeScale, m);
      h' := RecordFix(h', t.id, fix);
      updated := updated + [TickTarget(t, listener, timeScale, m)];
      i := i + 1;
    }
    assert ts[..|ts|] == ts;
  }

  // ---------------------------------------------------------------------
  // The store object
  // ---------------------------------------------------------------------

  class Store {
    var targets: seq<Target>
    var selectedTargetId: Option<string>
    var masterGain: real
    var isAudioInitialized: bool
    var lofarHistory: seq<LofarRecord>
    var bearingHistory: History
    var listenerPosition: Vec3
    var listenerRotation: int
    var timeCompression: real

    ghost predicate Valid()
      reads this
    {
      |lofarHistory| <= LofarKeep + 1 && Bounded(bearingHistory)
    }

    constructor ()
      ensures Valid()
      ensures targets == [CreateDefaultTarget("target-1", 500.0, 0.0),
                          CreateDefaultTarget("target-2", -300.0, 400.0)]
      ensures selectedTargetId == None && masterGain == 0.7 && !isAudioInitialized
      ensures lofarHistory == [] && bearingHistory == map[]
      ensures listenerPosition == InitialListener && listenerRotation == 0
      ensures timeCompression == 1.0
    {
      targets := [CreateDefaultTarget("target-1", 500.0, 0.0),
                  CreateDefaultTarget("target-2", -300.0, 400.0)];
      selectedTargetId := None;
      masterGain := 0.7;
      isAudioInitialized := false;
      lofarHistory := [];
      bearingHistory := map[];
      listenerPosition := InitialListener;
      listenerRotation := 0;
      timeCompression := 1.0;
    }

    method AddTarget(t: Target)
      requires Valid()
      modifies this`targets
      ensures Valid()
      ensures targets == old(targets) + [t]
    {
      targets := targets + [t];
    }

    method UpdateTargetPosition(id: string, position: Vec3, velocity: Vec3)
      requires Valid()
      modifies this`targets
      ensures Valid()
      ensures targets == Reposition(old(targets), id, position, velocity)
    {
      targets := Reposition(targets, id, position, velocity);
    }

    method SelectTarget(id: Option<string>)
      requires Valid()
      modifies this`selectedTargetId
      ensures Valid()
      ensures selectedTargetId == id
    {
      selectedTargetId := id;
    }

    method ClassifyTarget(id: string, c: Classification)
      requires Valid()
      modifies this`targets
      ensures Valid()
      ensures targets == Reclassify(old(targets), id, c)
    {
      targets := Reclassify(targets, id, c);
    }

    /** The store keeps the gain as given; clamping happens in the audio engine. */
    method SetMasterGain(gain: real)
      requires Valid()
      modifies this`masterGain
      ensures Valid()
      ensures masterGain == gain
    {
      masterGain := gain;
    }

    method SetAudioInitialized(initialized: bool)
      requires Valid()
      modifies this`isAudioInitialized
      ensures Valid()
      ensures isAudioInitialized == initialized
    {
      isAudioInitialized := initialized;
    }

    method AddLofarData(frequencies: seq<real>, magnitudes: seq<real>, now: int)
      requires Valid()
      modifies this`lofarHistory
      ensures Valid()
      ensures lofarHistory == LastN(old(lofarHistory), LofarKeep) + [LofarRecord(frequencies, magnitudes, now)]
    {
      lofarHistory := LastN(lofarHistory, LofarKeep) + [LofarRecord(frequencies, magnitudes, now)];
    }

    method AddBearingReading(id: string, r: BearingReading)
      requires Valid()
      modifies this`bearingHistory
      ensures Valid()
      ensures bearingHistory == AppendReading(old(bearingHistory), id, r)
    {
      AppendReadingSpec(bearingHistory, id, r);
      bearingHistory := AppendReading(bearingHistory, id, r);
    }

    method SetListenerPosition(p: Vec3)
      requires Valid()
      modifies this`listenerPosition
      ensures Valid()
      ensures listenerPosition == p
    {
      listenerPosition := p;
    }

    method SetListenerRotation(rotation: int)
      requires Valid()
      modifies this`listenerRotation
      ensures Valid()
      ensures listenerRotation == rotation
    {
      listenerRotation := rotation;
    }

    method SetTimeCompression(compression: real)
      requires Valid()
      modifies this`timeCompression
      ensures Valid()
      ensures timeCompression == compression
    {
      timeCompression := compression;
    }

    /**
     * One simulation tick. `now` is the clock reading and `draws[i]` the
     * random values drawn for `targets[i]`.
     */
    method Update(deltaTime: real, now: int, draws: seq<Draw>, m: MathLib)
      requires Valid() && m.Valid()
      requires |draws| == |targets| && forall d <- draws :: d.Valid()
      modifies this`targets, this`bearingHistory
      ensures Valid()
      ensures targets == TickAll(old(targets), listenerPosition, timeCompression * deltaTime, m)
      ensures bearingHistory == RecordFixes(old(bearingHistory), old(targets), listenerPosition,
                                            timeCompression * deltaTime, m, draws, now, |old(targets)|)
    {
      var ts, h0, listener, timeScale := targets, bearingHistory, listenerPosition, timeCompression * deltaTime;
      var updated, h := TickLoop(ts, h0, listener, timeScale, m, draws, now);
      RecordFixesBounded(h0, ts, listener, timeScale, m, draws, now, |ts|);
      targets, bearingHistory := updated, h;
      assert ts == old(targets) && h0 == old(bearingHistory);
      assert listener == listenerPosition && timeScale == timeCompression * deltaTime;
    }
  }

  // ---------------------------------------------------------------------
  // Properties
  // ---------------------------------------------------------------------

  /**
   * Motion is linear: velocity, identity, depth and signature are untouched,
   * and two ticks move a target exactly as far as one tick of their summed
   * time scale.
   */
  lemma TickComposes(t: Target, listener: Vec3, s1: real, s2: real, m: MathLib)
    requires m.Valid()
    ensures var t1 := TickTarget(t, listener, s1, m);
            && t1.id == t.id && t1.velocity == t.velocity && t1.depth == t.depth
            && t1.signature == t.signature
            && TickTarget(t1, listener, s2, m).position == TickTarget(t, listener, s1 + s2, m).position
  {
    var v := t.velocity;
    assert v.x * s1 + v.x * s2 == v.x * (s1 + s2);
    assert v.y * s1 + v.y * s2 == v.y * (s1 + s2);
    assert v.z * s1 + v.z * s2 == v.z * (s1 + s2);
  }

  /**
   * The list-level tick keeps the order of the targets: element i of the
   * result is target i ticked, so every per-target fact holds of the list.
   */
  lemma {:induction false} TickAllEach(ts: seq<Target>, listener: Vec3, timeScale: real, m: MathLib)
    requires m.Valid()
    ensures forall i :: 0 <= i < |ts| ==> TickAll(ts, listener, timeScale, m)[i] == TickTarget(ts[i], listener, timeScale, m)
  {
    if ts != [] {
      TickAllEach(ts[..|ts| - 1], listener, timeScale, m);
    }
  }

  /**
   * Detection in closed form: a target is detected exactly when its new
   * horizontal range is below 2000·cavitationLevel − 10.
   */
  lemma DetectedIffWithinRange(t: Target, listener: Vec3, timeScale: real, m: MathLib)
    requires m.Valid()
    ensures var p := Advance(t.position, t.velocity, timeScale);
            var reach := 2000.0 * t.signature.cavitationLevel - 10.0;
            TickTarget(t, listener, timeScale, m).detected
            <==> 0.0 < reach && RangeSquared(listener, p) < reach * reach
  {
    var p := Advance(t.position, t.velocity, timeScale);
    var cav := t.signature.cavitationLevel;
    var reach := 2000.0 * cav - 10.0;
    var c := Observe(t, listener, timeScale, m);
    var d := c.distance;
    DivLt(cav * 1000.0, d * 0.1 + 1.0, DetectionThreshold);
    assert c.detected <==> d < reach;
    if 0.0 < reach {
      SqrtOfSquare(m, reach);
      SquareNonNegative(reach);
      SqrtLess(m, RangeSquared(listener, p), reach * reach);
    }
  }

  /** For a target that makes noise at all, SNR strictly falls as range grows. */
  lemma SnrDecreasing(cavitation: real, d1: real, d2: real)
    requires 0.0 < cavitation && 0.0 <= d1 < d2
    ensures Snr(cavitation, d1) > Snr(cavitation, d2)
  {
    var a, b := d1 * 0.1 + 1.0, d2 * 0.1 + 1.0;
    var k := cavitation * 1000.0;
    var s2 := k / b;
    assert s2 * b == k;
    MulLt(a, b, s2);
    DivLt(k, a, s2);
  }

  /**
   * A tick changes classification only from UNDETECTED to DETECTED, and only
   * for a detected target; it never lowers the rank.
   */
  lemma TickNeverLowersClassification(t: Target, listener: Vec3, timeScale: real, m: MathLib)
    requires m.Valid()
    ensures var t1 := TickTarget(t, listener, timeScale, m);
            && Rank(t1.classification) >= Rank(t.classification)
            && (t1.classification != t.classification
                ==> t.classification == Undetected && t1.classification == Detected && t1.detected)
  {
  }

  /**
   * A recorded fix belongs to a detected target, carries the tick's clock,
   * has confidence min(snr/20, 1) in (0.25, 1] and lies within 2.5 degrees
   * of the computed bearing.
   */
  lemma FixBounds(c: Contact, d: Draw, now: int)
    requires d.Valid() && c.detected == (c.snr > DetectionThreshold)
    ensures FixOf(c, d, now).Some? <==> c.detected && d.gate < FixProbability
    ensures FixOf(c, d, now).Some? ==>
              var r := FixOf(c, d, now).value;
              && r.timestamp == now
              && 0.25 < r.confidence <= 1.0
              && c.bearing - 2.5 <= r.bearing < c.bearing + 2.5
  {
  }

  /**
   * `addBearingReading`: the target's history becomes the last 200 entries
   * of the old history followed by `r`; every other history is unchanged.
   */
  lemma AppendReadingSpec(h: History, id: string, r: BearingReading)
    ensures var h1 := AppendReading(h, id, r);
            var s := HistoryOf(h, id) + [r];
            && h1.Keys == h.Keys + {id}
            && 0 < |h1[id]| <= BearingCapacity
            && h1[id][|h1[id]| - 1] == r
            && h1[id] == s[|s| - |h1[id]|..]
            && (forall k :: k in h && k != id ==> h1[k] == h[k])
            && (Bounded(h) ==> Bounded(h1))
  {
    LastNIsSuffix(HistoryOf(h, id) + [r], BearingCapacity);
  }

  lemma LastNAppend<T>(s: seq<T>, x: T, n: nat)
    requires n > 0
    ensures LastN(LastN(s, n) + [x], n) == LastN(s + [x], n)
  {
    var t := LastN(s, n);
    if |s| > n {
      assert (t + [x])[1..] == (s + [x])[|s| + 1 - n..];
    }
  }

  /** Readings appended one at a time through `addBearingReading`. */
  function AppendAll(h: History, id: string, rs: seq<BearingReading>): History
  {
    if rs == [] then h else AppendReading(AppendAll(h, id, rs[..|rs| - 1]), id, rs[|rs| - 1])
  }

  /**
   * The history behaves as a FIFO window of 200: after any run of appends
   * it holds exactly the last 200 of everything appended (250 appends keep
   * the last 200).
   */
  lemma {:induction false} AppendAllKeepsLast(h: History, id: string, rs: seq<BearingReading>)
    requires rs != []
    ensures AppendAll(h, id, rs)[id] == LastN(HistoryOf(h, id) + rs, BearingCapacity)
  {
    var init := rs[..|rs| - 1];
    var x := rs[|rs| - 1];
    assert rs == init + [x];
    assert HistoryOf(h, id) + rs == (HistoryOf(h, id) + init) + [x];
    if init == [] {
    } else {
      AppendAllKeepsLast(h, id, init);
      LastNAppend(HistoryOf(h, id) + init, x, BearingCapacity);
    }
  }

  /** The tick keeps every history within 200 readings. */
  lemma {:induction false} RecordFixesBounded(h: History, ts: seq<Target>, listener: Vec3, timeScale: real,
                                              m: MathLib, draws: seq<Draw>, now: int, n: nat)
    requires m.Valid() && n <= |ts| && n <= |draws| && Bounded(h)
    ensures Bounded(RecordFixes(h, ts, listener, timeScale, m, draws, now, n))
  {
    if n > 0 {
      RecordFixesBounded(h, ts, listener, timeScale, m, draws, now, n - 1);
      var prev := RecordFixes(h, ts, listener, timeScale, m, draws, now, n - 1);
      RecordFixBounded(prev, ts[n - 1].id, FixOf(Observe(ts[n - 1], listener, timeScale, m), draws[n - 1], now));
    }
  }

  lemma RecordFixBounded(h: History, id: string, fix: Option<BearingReading>)
    requires Bounded(h)
    ensures Bounded(RecordFix(h, id, fix))
  {
    if fix.Some? { AppendReadingSpec(h, id, fix.value); }
  }

  /**
   * Only detected targets gain readings: a history whose targets were all
   * undetected after the tick is left exactly as it was.
   */
  lemma {:induction false} RecordFixesOnlyDetected(h: History, ts: seq<Target>, listener: Vec3, timeScale: real,
                                                   m: MathLib, draws: seq<Draw>, now: int, n: nat, id: string)
    requires m.Valid() && n <= |ts| && n <= |draws|
    requires forall k :: 0 <= k < n && ts[k].id == id ==> !TickTarget(ts[k], listener, timeScale, m).detected
    ensures var h1 := RecordFixes(h, ts, listener, timeScale, m, draws, now, n);
            (id in h1 <==> id in h) && HistoryOf(h1, id) == HistoryOf(h, id)
  {
    if n > 0 {
      RecordFixesOnlyDetected(h, ts, listener, timeScale, m, draws, now, n - 1, id);
    }
  }

  /** `addLOFARData` keeps the newest 100 old lines and appends the new one. */
  lemma AddLofarSpec(old_: seq<LofarRecord>, r: LofarRecord)
    ensures var h := LastN(old_, LofarKeep) + [r];
            && 0 < |h| <= LofarKeep + 1
            && h[|h| - 1] == r
            && h[..|h| - 1] == old_[|old_| - (|h| - 1)..]
  {
    LastNIsSuffix(old_, LofarKeep);
    var h := LastN(old_, LofarKeep) + [r];
    assert h[..|h| - 1] == LastN(old_, LofarKeep);
  }

  /**
   * `classifyTarget` rewrites only targets with the given id: length, order
   * and every other target are kept, and an unknown id changes nothing.
   */
  lemma {:induction false} ReclassifyOnlyMatching(ts: seq<Target>, id: string, c: Classification)
    ensures var r := Reclassify(ts, id, c);
            && |r| == |ts|
            && (forall i :: 0 <= i < |ts| && ts[i].id != id ==> r[i] == ts[i])
            && (forall i :: 0 <= i < |ts| && ts[i].id == id ==> r[i] == ts[i].(classification := c))
            && ((forall i :: 0 <= i < |ts| ==> ts[i].id != id) ==> r == ts)
  {
    if ts != [] {
      ReclassifyOnlyMatching(ts[..|ts| - 1], id, c);
      assert ts == ts[..|ts| - 1] + [ts[|ts| - 1]];
    }
  }

  /**
   * `updateTargetPosition` rewrites position and velocity of the targets
   * with the given id only; an unknown id changes nothing.
   */
  lemma {:induction false} RepositionOnlyMatching(ts: seq<Target>, id: string, p: Vec3, v: Vec3)
    ensures var r := Reposition(ts, id, p, v);
            && |r| == |ts|
            && (forall i :: 0 <= i < |ts| && ts[i].id != id ==> r[i] == ts[i])
            && (forall i :: 0 <= i < |ts| && ts[i].id == id ==> r[i] == ts[i].(position := p, velocity := v))
            && ((forall i :: 0 <= i < |ts| ==> ts[i].id != id) ==> r == ts)
  {
    if ts != [] {
      RepositionOnlyMatching(ts[..|ts| - 1], id, p, v);
      assert ts == ts[..|ts| - 1] + [ts[|ts| - 1]];
    }
  }

  /**
   * `classifyTarget` does not enforce the lifecycle order: it can move an
   * IDENTIFIED target straight back to UNDETECTED.
   */
  lemma ReclassifyCanLowerRank()
    ensures var t := CreateDefaultTarget("t", 0.0, 0.0).(classification := Identified);
            Reclassify([t], "t", Undetected)[0].classification == Undetected
  {
    var t := CreateDefaultTarget("t", 0.0, 0.0).(classification := Identified);
    assert [t][..0] == [];
  }

  /**
   * The initial scenario: both default targets are detected, and become
   * DETECTED, on a first tick of up to 40 s of simulated time. Their
   * cavitation 0.3 gives a detection reach of 590 units, and after the tick
   * they lie at most 580 units away.
   */
  lemma InitialTargetsDetected(timeScale: real, m: MathLib)
    requires m.Valid() && 0.0 <= timeScale <= 40.0
    ensures var t1 := TickTarget(CreateDefaultTarget("target-1", 500.0, 0.0), InitialListener, timeScale, m);
            t1.detected && t1.classification == Detected
    ensures var t2 := TickTarget(CreateDefaultTarget("target-2", -300.0, 400.0), InitialListener, timeScale, m);
            t2.detected && t2.classification == Detected
  {
    var a := 500.0 + 2.0 * timeScale;
    MulLe(a, 580.0, a);
    MulLe(a, 580.0, 580.0);
    var t1 := CreateDefaultTarget("target-1", 500.0, 0.0);
    assert RangeSquared(InitialListener, Advance(t1.position, t1.velocity, timeScale)) == a * a <= 336400.0;
    DetectedIffWithinRange(CreateDefaultTarget("target-1", 500.0, 0.0), InitialListener, timeScale, m);
    var b := 300.0 - 2.0 * timeScale;
    MulLe(b, 300.0, b);
    MulLe(b, 300.0, 300.0);
    var t2 := CreateDefaultTarget("target-2", -300.0, 400.0);
    assert RangeSquared(InitialListener, Advance(t2.position, t2.velocity, timeScale)) == b * b + 160000.0;
    DetectedIffWithinRange(CreateDefaultTarget("target-2", -300.0, 400.0), InitialListener, timeScale, m);
  }

}
