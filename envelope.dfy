/** The ADSR amplitude envelope of the synthesizer (struct EnvolopeADSR).
    Times and amplitudes are modelled as mathematical reals. */
module Envelope {

  /** Attack, decay and release durations in seconds, the sustain level and
      the level reached at the end of the attack. */
  datatype Adsr = Adsr(attackTime: real, decayTime: real, sustainAmplitude: real,
                       releaseTime: real, startAmplitude: real)

  /** The defaults of the EnvolopeADSR constructor. */
  const DefaultAdsr: Adsr := Adsr(0.1, 0.1, 1.0, 0.2, 1.0)

  /** Amplitudes at or below this level are reported as exactly 0. */
  const SilenceThreshold: real := 0.001

  function Max(a: real, b: real): real {
    if a >= b then a else b
  }

  /** The amplitude a note held for lifeTime seconds has: a linear attack
      ramp from 0 to startAmplitude, a linear decay to sustainAmplitude, then
      the sustain level.  The three phases are tested one after another, each
      later one overriding, as the source does. */
  function HeldAmplitude(env: Adsr, lifeTime: real): real
    requires env.attackTime > 0.0
  {
    var attack :=
      if lifeTime <= env.attackTime then (lifeTime / env.attackTime) * env.startAmplitude else 0.0;
    var decay :=
      if env.attackTime < lifeTime <= env.attackTime + env.decayTime
      then ((lifeTime - env.attackTime) / env.decayTime) * (env.sustainAmplitude - env.startAmplitude)
           + env.startAmplitude
      else attack;
    if lifeTime > env.attackTime + env.decayTime then env.sustainAmplitude else decay
  }

  /** What Amplitude needs: a positive attack time (it is divided by), and a
      non-zero release time when the note is in its release branch. */
  predicate AmplitudeDefined(env: Adsr, timeOn: real, timeOff: real) {
    env.attackTime > 0.0 && (timeOn <= timeOff ==> env.releaseTime != 0.0)
  }

  predicate NonNegativeLevels(env: Adsr) {
    env.startAmplitude >= 0.0 && env.sustainAmplitude >= 0.0
  }

  /** EnvolopeADSR::Amplitude.  A note is held while timeOn > timeOff;
      otherwise it is released, and the level it had at timeOff is replayed
      from the held phases and ramped linearly to 0 over releaseTime.  Levels
      at or below the threshold are reported as exactly 0. */
  function Amplitude(env: Adsr, time: real, timeOn: real, timeOff: real): (r: real)
    requires AmplitudeDefined(env, timeOn, timeOff)
    ensures r == 0.0 || r > SilenceThreshold
  {
    var amplitude :=
      if timeOn > timeOff then HeldAmplitude(env, time - timeOn)
      else
        var releaseAmplitude := HeldAmplitude(env, timeOff - timeOn);
        ((time - timeOff) / env.releaseTime) * (0.0 - releaseAmplitude) + releaseAmplitude;
    if amplitude <= SilenceThreshold then 0.0 else amplitude
  }

  /** Real-arithmetic facts the bounds below use: the quotient of two
      non-negative reals compared with 1, and a scaling by a fraction. */
  lemma QuotientBounds(x: real, y: real)
    requires y > 0.0 && x >= 0.0
    ensures x / y >= 0.0
    ensures x <= y ==> x / y <= 1.0
    ensures x >= y ==> x / y >= 1.0
  {
    var q := x / y;
    assert q * y == x;
    assert (q - 1.0) * y == x - y;
  }

  lemma ScaleWithin(m: real, r: real)
    requires m <= 1.0 && r >= 0.0
    ensures m * r <= r
    ensures 0.0 <= m ==> 0.0 <= m * r
    ensures m <= 0.0 ==> m * r <= 0.0
  {
    assert (1.0 - m) * r >= 0.0;
  }

  /** The release ramp at fraction k >= 0 of its length, from a level
      between 0 and hi, stays at most hi. */
  lemma RampBounds(k: real, ra: real, hi: real)
    requires k >= 0.0 && 0.0 <= ra <= hi
    ensures k * (0.0 - ra) + ra <= hi
  {
    var m := 1.0 - k;
    assert k * (0.0 - ra) + ra == m * ra;
    ScaleWithin(m, ra);
  }

  /** The attack ramp ends exactly at startAmplitude and the decay ramp ends
      exactly at the sustain level, so the held curve has no jump. */
  lemma HeldPhasesMeet(env: Adsr)
    requires env.attackTime > 0.0 && env.decayTime > 0.0
    ensures HeldAmplitude(env, env.attackTime) == env.startAmplitude
    ensures HeldAmplitude(env, env.attackTime + env.decayTime) == env.sustainAmplitude
  {
  }

  /** With non-negative levels a held curve stays between 0 and the larger
      of the two levels once the note has started. */
  lemma HeldAmplitudeBounds(env: Adsr, lifeTime: real)
    requires env.attackTime > 0.0 && NonNegativeLevels(env)
    requires lifeTime >= 0.0
    ensures 0.0 <= HeldAmplitude(env, lifeTime) <= Max(env.startAmplitude, env.sustainAmplitude)
  {
    var a, d := env.attackTime, env.decayTime;
    var s0, s := env.startAmplitude, env.sustainAmplitude;
    if lifeTime <= a {
      var f := lifeTime / a;
      var p := f * s0;
      QuotientBounds(lifeTime, a);
      ScaleWithin(f, s0);
      assert 0.0 <= p <= s0;
    } else if lifeTime <= a + d {
      var f := (lifeTime - a) / d;
      assert 0.0 < f <= 1.0;
      assert f * (s - s0) + s0 == f * s + (1.0 - f) * s0;
      assert 0.0 <= f * s <= s;
      assert 0.0 <= (1.0 - f) * s0 <= s0;
      assert f * s + (1.0 - f) * s0 <= f * Max(s0, s) + (1.0 - f) * Max(s0, s);
    }
  }

  /** The held branch does not look at timeOff as long as the note is held. */
  lemma HeldIgnoresTimeOff(env: Adsr, time: real, timeOn: real, timeOff1: real, timeOff2: real)
    requires env.attackTime > 0.0
    requires timeOn > timeOff1 && timeOn > timeOff2
    ensures Amplitude(env, time, timeOn, timeOff1) == Amplitude(env, time, timeOn, timeOff2)
  {
  }

  /** A note held past its attack and decay plays its sustain level (or 0 if
      that level is below the threshold). */
  lemma SustainPhase(env: Adsr, time: real, timeOn: real, timeOff: real)
    requires env.attackTime > 0.0
    requires timeOn > timeOff
    requires time - timeOn > env.attackTime + env.decayTime
    ensures Amplitude(env, time, timeOn, timeOff) ==
            if env.sustainAmplitude <= SilenceThreshold then 0.0 else env.sustainAmplitude
  {
  }

  /** At the instant of release the released note has exactly the level the
      held note had at the same instant: the release replays the held curve
      at lifetime timeOff - timeOn. */
  lemma ReleaseStartsAtHeldLevel(env: Adsr, timeOn: real, timeOff: real, heldOff: real)
    requires env.attackTime > 0.0 && env.releaseTime != 0.0
    requires timeOn <= timeOff
    requires heldOff < timeOn
    ensures Amplitude(env, timeOff, timeOn, timeOff) == Amplitude(env, timeOff, timeOn, heldOff)
  {
    var releaseAmplitude := HeldAmplitude(env, timeOff - timeOn);
    assert ((timeOff - timeOff) / env.releaseTime) * (0.0 - releaseAmplitude) + releaseAmplitude
           == releaseAmplitude;
  }

  /** Once releaseTime has passed since timeOff, a released note is silent. */
  lemma ReleaseEnds(env: Adsr, time: real, timeOn: real, timeOff: real)
    requires env.attackTime > 0.0 && env.releaseTime > 0.0 && NonNegativeLevels(env)
    requires timeOn <= timeOff
    requires time - timeOff >= env.releaseTime
    ensures Amplitude(env, time, timeOn, timeOff) == 0.0
  {
    var ra := HeldAmplitude(env, timeOff - timeOn);
    HeldAmplitudeBounds(env, timeOff - timeOn);
    var k := (time - timeOff) / env.releaseTime;
    QuotientBounds(time - timeOff, env.releaseTime);
    assert k * (0.0 - ra) + ra == (1.0 - k) * ra;
    ScaleWithin(1.0 - k, ra);
  }

  /** With non-negative levels and a positive release time the amplitude of
      a started note lies between 0 and the larger of its two levels. */
  lemma AmplitudeBounds(env: Adsr, time: real, timeOn: real, timeOff: real)
    requires env.attackTime > 0.0 && env.releaseTime > 0.0 && NonNegativeLevels(env)
    requires timeOn > timeOff ==> time >= timeOn
    requires timeOn <= timeOff ==> time >= timeOff
    ensures 0.0 <= Amplitude(env, time, timeOn, timeOff) <= Max(env.startAmplitude, env.sustainAmplitude)
  {
    if timeOn > timeOff {
      HeldAmplitudeBounds(env, time - timeOn);
    } else {
      var ra := HeldAmplitude(env, timeOff - timeOn);
      HeldAmplitudeBounds(env, timeOff - timeOn);
      QuotientBounds(time - timeOff, env.releaseTime);
      RampBounds((time - timeOff) / env.releaseTime, ra, Max(env.startAmplitude, env.sustainAmplitude));
    }
  }

  /** A note whose on and off times coincide is in the release branch and,
      having no held lifetime, is silent. */
  lemma CoincidentOnOffIsSilent(env: Adsr, time: real, t: real)
    requires env.attackTime > 0.0 && env.decayTime >= 0.0 && env.releaseTime != 0.0
    ensures Amplitude(env, time, t, t) == 0.0
  {
    assert HeldAmplitude(env, 0.0) == 0.0;
  }

  /** The envelope depends on the three times only through their differences. */
  lemma AmplitudeShiftInvariant(env: Adsr, time: real, timeOn: real, timeOff: real, d: real)
    requires AmplitudeDefined(env, timeOn, timeOff)
    ensures Amplitude(env, time + d, timeOn + d, timeOff + d) == Amplitude(env, time, timeOn, timeOff)
  {
    assert (time + d) - (timeOn + d) == time - timeOn;
    assert (timeOff + d) - (timeOn + d) == timeOff - timeOn;
    assert (time + d) - (timeOff + d) == time - timeOff;
  }
}
