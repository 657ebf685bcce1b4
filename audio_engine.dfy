/**
 * The audio engine's parameter logic: a registry of per-target voices (a
 * 3-D panner, a noise source and a low-pass filter under the same id), the
 * initialisation guard, the Doppler playback rate, the depth-dependent
 * filter cutoff and the master gain clamp. The audio nodes themselves are
 * represented by the parameter values the engine writes into them.
 */
module Audio {
  import opened SonarTypes

  /** Speed of sound in water, metres per second. */
  const SpeedOfSound: real := 1500.0
  const InitialMasterGain: real := 0.7
  /** Cutoff a new voice's filter starts with, in Hz. */
  const InitialCutoff: real := 1000.0
  const Origin: Vec3 := Vec3(0.0, 0.0, 0.0)

  /** A target's spatial panner; only its position changes after creation. */
  datatype Panner = Panner(position: Vec3)
  /** A target's cavitation noise source. */
  datatype NoiseSource = NoiseSource(playbackRate: real, playing: bool)
  datatype LowpassFilter = LowpassFilter(cutoff: real)

  /**
   * `Math.max(0.5, Math.min(2, 1500 / (1500 - v)))` for the radial velocity
   * `v`. At v = 1500 the host division yields +Infinity, which the clamp
   * turns into 2.
   */
  function DopplerRate(v: real): (r: real)
    ensures 0.5 <= r <= 2.0
  {
    if v == SpeedOfSound then 2.0
    else Clamp(SpeedOfSound / (SpeedOfSound - v), 0.5, 2.0)
  }

  /** `Math.max(200, 2000 - depth * 10)`: deeper targets sound duller. */
  function DepthCutoff(depth: real): (r: real)
    ensures 200.0 <= r
    ensures depth <= 180.0 ==> r == 2000.0 - depth * 10.0
    ensures depth >= 180.0 ==> r == 200.0
  {
    Max(200.0, 2000.0 - depth * 10.0)
  }

  /** Horizontal distance of `p` from the origin, where the engine assumes the listener is. */
  function OriginDistance(p: Vec3, m: MathLib): (d: real)
    requires m.Valid()
    ensures 0.0 <= d
    ensures p.x == 0.0 && p.z == 0.0 ==> d == 0.0
  {
    SquareNonNegative(p.x);
    SquareNonNegative(p.z);
    SqrtOfSquare(m, 0.0);
    m.sqrt(p.x * p.x + p.z * p.z)
  }

  /** Velocity along the line from the origin to the target, at horizontal distance `d`. */
  function RadialVelocity(t: Target, d: real): real
    requires d > 0.0
  {
    t.velocity.x * (t.position.x / d) + t.velocity.z * (t.position.z / d)
  }

  /**
   * The playback rate `updateTarget` computes for a target, or None when
   * the target sits on the vertical axis through the origin and the rate
   * is left as it was.
   */
  function VoiceRate(t: Target, m: MathLib): Option<real>
    requires m.Valid()
  {
    var d := OriginDistance(t.position, m);
    if d > 0.0 then
      Some(DopplerRate(RadialVelocity(t, d)))
    else None
  }

  class AudioEngine {
    var targetSources: map<string, Panner>
    var targetNoises: map<string, NoiseSource>
    var targetFilters: map<string, LowpassFilter>
    var isInitialized: bool
    var masterGain: real
    var listenerPosition: Vec3

    /** The three registries always describe the same voices, and none exist before initialisation. */
    ghost predicate Valid()
      reads this
    {
      && targetSources.Keys == targetNoises.Keys == targetFilters.Keys
      && (!isInitialized ==> targetSources == map[])
    }

    constructor ()
      ensures Valid() && !isInitialized
      ensures targetSources == map[] && targetNoises == map[] && targetFilters == map[]
      ensures masterGain == InitialMasterGain && listenerPosition == Origin
    {
      targetSources, targetNoises, targetFilters := map[], map[], map[];
      isInitialized := false;
      masterGain := InitialMasterGain;
      listenerPosition := Origin;
    }

    /** Starts audio once; a second call does nothing. */
    method Initialize()
      requires Valid()
      modifies this`isInitialized, this`listenerPosition
      ensures Valid() && isInitialized
      ensures listenerPosition == if old(isInitialized) then old(listenerPosition) else Origin
    {
      if isInitialized {
        return;
      }
      listenerPosition := Origin;
      isInitialized := true;
    }

    /** Moves the listener; ignored before initialisation. */
    method SetListenerPosition(position: Vec3, rotation: real)
      modifies this`listenerPosition
      ensures listenerPosition == if isInitialized then position else old(listenerPosition)
    {
      if !isInitialized {
        return;
      }
      listenerPosition := position;
    }

    /**
     * Registers a voice for a new target: a panner at its position, brown
     * noise playing at rate 1 and a 1000 Hz low-pass. Ignored before
     * initialisation and for an id already registered.
     */
    method AddTarget(t: Target)
      requires Valid()
      modifies this`targetSources, this`targetNoises, this`targetFilters
      ensures Valid()
      ensures if !isInitialized || t.id in old(targetSources) then
                targetSources == old(targetSources) && targetNoises == old(targetNoises)
                && targetFilters == old(targetFilters)
              else
                && targetSources == old(targetSources)[t.id := Panner(t.position)]
                && targetNoises == old(targetNoises)[t.id := NoiseSource(1.0, true)]
                && targetFilters == old(targetFilters)[t.id := LowpassFilter(InitialCutoff)]
    {
      if !isInitialized {
        return;
      }
      if t.id in targetSources {
        return;
      }
      targetSources := targetSources[t.id := Panner(t.position)];
      targetNoises := targetNoises[t.id := NoiseSource(1.0, true)];
      targetFilters := targetFilters[t.id := LowpassFilter(InitialCutoff)];
    }

    /** Stops and forgets a voice; an unknown id changes nothing. */
    method RemoveTarget(id: string)
      requires Valid()
      modifies this`targetSources, this`targetNoises, this`targetFilters
      ensures Valid()
      ensures targetSources == old(targetSources) - {id}
      ensures targetNoises == old(targetNoises) - {id}
      ensures targetFilters == old(targetFilters) - {id}
    {
      // Stands for `noise.stop()` on the voice before it is forgotten.
      if id in targetNoises {
        targetNoises := targetNoises[id := targetNoises[id].(playing := false)];
      }
      targetSources := targetSources - {id};
      targetNoises := targetNoises - {id};
      targetFilters := targetFilters - {id};
    }

    /**
     * Follows a target: an unregistered target is registered and nothing
     * else happens; otherwise the panner moves, the noise rate follows the
     * Doppler shift and the filter cutoff follows the depth.
     */
    method UpdateTarget(t: Target, m: MathLib)
      requires Valid() && m.Valid()
      modifies this`targetSources, this`targetNoises, this`targetFilters
      ensures Valid()
      ensures !isInitialized ==>
                targetSources == old(targetSources) && targetNoises == old(targetNoises)
                && targetFilters == old(targetFilters)
      ensures isInitialized && t.id !in old(targetSources) ==>
                && targetSources == old(targetSources)[t.id := Panner(t.position)]
                && targetNoises == old(targetNoises)[t.id := NoiseSource(1.0, true)]
                && targetFilters == old(targetFilters)[t.id := LowpassFilter(InitialCutoff)]
      ensures isInitialized && t.id in old(targetSources) ==>
                && targetSources == old(targetSources)[t.id := Panner(t.position)]
                && targetNoises == (match VoiceRate(t, m)
                                    case None => old(targetNoises)
                                    case Some(rate) =>
                                      old(targetNoises)[t.id := old(targetNoises)[t.id].(playbackRate := rate)])
                && targetFilters == old(targetFilters)[t.id := LowpassFilter(DepthCutoff(t.depth))]
    {
      if !isInitialized {
        return;
      }
      if t.id !in targetSources {
        AddTarget(t);
        return;
      }
      targetSources := targetSources[t.id := Panner(t.position)];
      var distance := OriginDistance(t.position, m);
      if distance > 0.0 {
        var relativeVelocity := RadialVelocity(t, distance);
        if t.id in targetNoises {
          targetNoises := targetNoises[t.id := targetNoises[t.id].(playbackRate := DopplerRate(relativeVelocity))];
        }
      }
      if t.id in targetFilters {
        targetFilters := targetFilters[t.id := LowpassFilter(DepthCutoff(t.depth))];
      }
    }

    method SetMasterGain(gain: real)
      modifies this`masterGain
      ensures masterGain == Clamp(gain, 0.0, 1.0)
      ensures 0.0 <= masterGain <= 1.0
    {
      masterGain := Clamp(gain, 0.0, 1.0);
    }

    /** Removes every registered voice. */
    method Dispose()
      requires Valid()
      modifies this`targetSources, this`targetNoises, this`targetFilters
      ensures Valid()
      ensures targetSources == map[] && targetNoises == map[] && targetFilters == map[]
    {
      var ids := targetSources.Keys;
      while ids != {}
        invariant Valid()
        invariant targetSources.Keys == ids
        decreases ids
      {
        var id :| id in ids;
        RemoveTarget(id);
        ids := ids - {id};
      }
    }
  }

  // ---------------------------------------------------------------------
  // Properties
  // ---------------------------------------------------------------------

  /**
   * The Doppler rate at its edges and in its linear range: radial speeds
   * from -1500 to 750 are not clipped, sound speed itself gives 2, and
   * anything faster than sound gives 0.5.
   */
  lemma DopplerRanges(v: real)
    ensures -SpeedOfSound <= v <= 750.0 ==> DopplerRate(v) == SpeedOfSound / (SpeedOfSound - v)
    ensures v == SpeedOfSound ==> DopplerRate(v) == 2.0
    ensures v > SpeedOfSound ==> DopplerRate(v) == 0.5
  {
    if -SpeedOfSound <= v <= 750.0 {
      var d := SpeedOfSound - v;
      DivLt(SpeedOfSound, d, 2.0);
      DivLt(SpeedOfSound, d, 0.5);
    }
    if v > SpeedOfSound {
      var d := SpeedOfSound - v;
      var q := SpeedOfSound / d;
      assert q * d == SpeedOfSound;
      if q >= 0.0 { MulLe(0.0, q, -d); }
    }
  }

  /**
   * The sign convention of the engine: a target moving away from the
   * origin (positive radial velocity, below sound speed) is played faster
   * than normal, one moving towards it slower, and a stationary one at 1.
   */
  lemma DopplerDirection(v: real)
    ensures 0.0 < v < SpeedOfSound ==> DopplerRate(v) > 1.0
    ensures v < 0.0 ==> DopplerRate(v) < 1.0
    ensures v == 0.0 ==> DopplerRate(v) == 1.0
  {
    if v != SpeedOfSound {
      var d := SpeedOfSound - v;
      if 0.0 < v < SpeedOfSound { DivLt(SpeedOfSound, d, 1.0); }
      if v < 0.0 {
        var q := SpeedOfSound / d;
        assert q * d == SpeedOfSound;
        if q >= 1.0 { MulLe(1.0, q, d); }
      }
    }
  }

  /** Below sound speed, a faster recession never lowers the rate. */
  lemma DopplerMonotone(v1: real, v2: real)
    requires v1 <= v2 < SpeedOfSound
    ensures DopplerRate(v1) <= DopplerRate(v2)
  {
    var d1, d2 := SpeedOfSound - v1, SpeedOfSound - v2;
    var q1, q2 := SpeedOfSound / d1, SpeedOfSound / d2;
    assert q1 * d1 == SpeedOfSound && q2 * d2 == SpeedOfSound;
    DivLt(SpeedOfSound, d1, 0.0);
    if q1 > q2 {
      MulLt(q2, q1, d2);
      MulLe(d2, d1, q1);
    }
  }

  /** The documented depth cutoffs: 1500 Hz at 50 m and the 200 Hz floor from 180 m down. */
  lemma DepthCutoffValues(depth1: real, depth2: real)
    requires depth1 <= depth2
    ensures DepthCutoff(50.0) == 1500.0 && DepthCutoff(200.0) == 200.0
    ensures DepthCutoff(depth2) <= DepthCutoff(depth1)
  {
  }
}
