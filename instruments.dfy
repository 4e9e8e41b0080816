/** The synthesizer's instruments (the InstrumentBase hierarchy) and the
    note that plays through one of them.  The oscillator mix of each
    instrument is not modelled: it is the Waveform parameter. */
module Instruments {
  import opened Wrappers
  import opened Envelope

  /** One name per concrete instrument struct; the program creates one
      global object of each, so the name also stands for its address. */
  datatype InstrumentName =
    | TestInstrument | Bell | Bell8 | Harmonica
    | DrumKick | DrumSnare | DrumHiHat
    | UserSensor | CordPlayer | CordBase
    | CordDiminished | CordInversion | CordBaseInverted
    | UserSensorInversion | UserSensorDiminished

  /** How an instrument decides that a note is over. */
  datatype FinishRule =
    /** Finished once the envelope is silent and the note has been released. */
    | WhenReleasedSilent
    /** Finished once the note has lived maxLifeTime seconds, whatever the key does. */
    | AfterLifetime(maxLifeTime: real)

  datatype Instrument = Instrument(name: InstrumentName, volume: real, env: Adsr, rule: FinishRule)

  /** The oscillator mix an instrument produces for a lifetime and a scale
      position, before envelope and volume are applied. */
  type Waveform = (InstrumentName, real, int) -> real

  datatype SoundResult = SoundResult(sample: real, finished: bool)

  predicate Percussive(inst: Instrument) {
    inst.rule.AfterLifetime?
  }

  /** The settings each constructor writes.  The envelope's start amplitude
      is never set and keeps its default of 1. */
  function Config(name: InstrumentName): (inst: Instrument)
    ensures inst.name == name
    ensures inst.env.attackTime > 0.0 && inst.env.decayTime > 0.0 && NonNegativeLevels(inst.env)
    ensures inst.env.startAmplitude == 1.0
    ensures !Percussive(inst) ==> inst.env.releaseTime > 0.0
    ensures Percussive(inst) ==>
              inst.rule.maxLifeTime == inst.env.attackTime + inst.env.decayTime
              && inst.env.sustainAmplitude == 0.0 && inst.env.releaseTime == 0.0
  {
    match name
    case TestInstrument       => Instrument(name, 0.5,  Adsr(0.01, 0.1, 0.65, 0.1, 1.0), WhenReleasedSilent)
    case Bell                 => Instrument(name, 1.0,  Adsr(0.01, 1.0, 0.0, 1.0, 1.0), WhenReleasedSilent)
    case Bell8                => Instrument(name, 1.0,  Adsr(0.01, 0.5, 0.8, 1.0, 1.0), WhenReleasedSilent)
    case Harmonica            => Instrument(name, 0.3,  Adsr(0.05, 1.0, 0.95, 0.1, 1.0), WhenReleasedSilent)
    case DrumKick             => Lifetime(name, 0.5,  0.001, 0.5)
    case DrumSnare            => Lifetime(name, 0.05, 0.01, 0.6)
    case DrumHiHat            => Lifetime(name, 0.02, 0.01, 0.05)
    case UserSensor           => Lifetime(name, 1.3,  0.01, 0.5)
    case CordPlayer           => Lifetime(name, 0.5,  0.01, 1.1)
    case CordBase             => Lifetime(name, 0.3,  0.01, 2.0)
    case CordDiminished       => Lifetime(name, 0.5,  0.01, 1.1)
    case CordInversion        => Lifetime(name, 0.5,  0.01, 1.1)
    case CordBaseInverted     => Lifetime(name, 0.3,  0.01, 2.0)
    case UserSensorInversion  => Lifetime(name, 1.3,  0.01, 0.5)
    case UserSensorDiminished => Lifetime(name, 1.3,  0.01, 0.5)
  }

  /** A percussive instrument: no sustain, no release, and a maximum
      lifetime of attack plus decay. */
  function Lifetime(name: InstrumentName, volume: real, attack: real, decay: real): Instrument {
    Instrument(name, volume, Adsr(attack, decay, 0.0, 0.0, 1.0), AfterLifetime(attack + decay))
  }

  /** Where Sound is defined: the envelope must be evaluable whenever the
      instrument reaches it (a percussive note past its lifetime never does). */
  predicate SoundDefined(inst: Instrument, time: real, timeOn: real, timeOff: real) {
    match inst.rule
    case WhenReleasedSilent => AmplitudeDefined(inst.env, timeOn, timeOff)
    case AfterLifetime(m) => time - timeOn >= m || AmplitudeDefined(inst.env, timeOn, timeOff)
  }

  /** The Sound override of every instrument: the sample is envelope times
      oscillator mix times volume, and the finished flag follows the
      instrument's rule.  A finished note always yields 0. */
  function Sound(inst: Instrument, wave: Waveform, time: real, timeOn: real, timeOff: real,
                 scalePos: int): (r: SoundResult)
    requires SoundDefined(inst, time, timeOn, timeOff)
    ensures r.finished ==> r.sample == 0.0
    ensures inst.rule.WhenReleasedSilent? ==>
              (r.finished <==> Amplitude(inst.env, time, timeOn, timeOff) == 0.0 && timeOff > timeOn)
    ensures inst.rule.AfterLifetime? ==> (r.finished <==> time - timeOn >= inst.rule.maxLifeTime)
  {
    match inst.rule
    case WhenReleasedSilent =>
      var amplitude := Amplitude(inst.env, time, timeOn, timeOff);
      if amplitude <= 0.0 then SoundResult(0.0, timeOff > timeOn)
      else SoundResult(amplitude * wave(inst.name, time - timeOn, scalePos) * inst.volume, false)
    case AfterLifetime(m) =>
      if time - timeOn >= m then SoundResult(0.0, true)
      else
        var amplitude := Amplitude(inst.env, time, timeOn, timeOff);
        SoundResult(amplitude * wave(inst.name, time - timeOn, scalePos) * inst.volume, false)
  }

  /** A held key never finishes a note of an envelope-driven instrument,
      not even while its attack is still silent. */
  lemma HeldNoteNeverFinishes(inst: Instrument, wave: Waveform, time: real, timeOn: real,
                              timeOff: real, scalePos: int)
    requires inst.rule.WhenReleasedSilent? && inst.env.attackTime > 0.0
    requires timeOn > timeOff
    ensures !Sound(inst, wave, time, timeOn, timeOff, scalePos).finished
  {
  }

  /** A released note of one of the configured envelope-driven instruments
      is finished once its release time has passed. */
  lemma ReleasedNoteFinishes(name: InstrumentName, wave: Waveform, time: real, timeOn: real,
                             timeOff: real, scalePos: int)
    requires !Percussive(Config(name))
    requires timeOn < timeOff && time - timeOff >= Config(name).env.releaseTime
    ensures Sound(Config(name), wave, time, timeOn, timeOff, scalePos) == SoundResult(0.0, true)
  {
    ReleaseEnds(Config(name).env, time, timeOn, timeOff);
  }

  /** Percussive instruments ignore the key: a note lives exactly attack
      plus decay seconds of its own envelope. */
  lemma PercussiveLifetime(name: InstrumentName, wave: Waveform, time: real, timeOn: real,
                           timeOff: real, scalePos: int)
    requires Percussive(Config(name))
    requires SoundDefined(Config(name), time, timeOn, timeOff)
    ensures Sound(Config(name), wave, time, timeOn, timeOff, scalePos).finished <==>
            time - timeOn >= Config(name).env.attackTime + Config(name).env.decayTime
  {
  }

  /** The nine chord and user instruments driven by the phrase programmer
      and the three drums are percussive; the four melodic ones are not. */
  lemma PercussiveInstruments(name: InstrumentName)
    ensures Percussive(Config(name)) <==> name !in {TestInstrument, Bell, Bell8, Harmonica}
  {
  }

  /** A note being played: its scale position, the times its key went down
      and up, whether it is still sounding, and the instrument it plays
      through (None for a null channel). */
  datatype Note = Note(scalePosition: int, onTime: real, offTime: real, isActive: bool,
                       channel: Option<InstrumentName>)

  predicate NoteSoundDefined(note: Note, time: real) {
    note.channel.Some? ==> SoundDefined(Config(note.channel.value), time, note.onTime, note.offTime)
  }

  /** Note::Sound: the sample of the note at `time` and the note with
      IsActive set to whether its instrument still plays it. */
  function NoteSound(note: Note, wave: Waveform, time: real): (r: (real, Note))
    requires NoteSoundDefined(note, time)
    ensures r.1 == note.(isActive := r.1.isActive)
    ensures note.channel.None? ==> r.0 == 0.0 && r.1.isActive
    ensures note.channel.Some? ==>
              r.1.isActive == !Sound(Config(note.channel.value), wave, time, note.onTime,
                                     note.offTime, note.scalePosition).finished
    ensures !r.1.isActive ==> r.0 == 0.0
  {
    var result :=
      if note.channel.Some?
      then Sound(Config(note.channel.value), wave, time, note.onTime, note.offTime, note.scalePosition)
      else SoundResult(0.0, false);
    (result.sample, note.(isActive := !result.finished))
  }
}
