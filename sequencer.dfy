/** The beat sequencer (struct Sequencer): a step clock over a bar of
    TotalBeats steps that stages one note per channel whose pattern has a
    hit at the current step, and the channel table PlayBar edits. */
module Sequencing {
  import opened Wrappers
  import opened Pitch
  import opened Instruments

  /** An instrument bound to a beat pattern: a '.' is a rest, any other
      character a hit played at the pitch that character names. */
  datatype Channel = Channel(instrument: InstrumentName, beatSequence: string)

  /** The pitch a pattern character is played at.  NoteToScaleMap's
      operator[] yields 0 (after inserting it) for a character it lacks. */
  function HitPitch(c: char): (r: int)
    ensures IsNoteLetter(c) ==> r == NoteToScale(c)
    ensures !IsNoteLetter(c) ==> r == 0
  {
    if c in NoteToScaleMap then NoteToScaleMap[c] else 0
  }

  predicate IsHit(ch: Channel, beat: nat)
    requires beat < |ch.beatSequence|
  {
    ch.beatSequence[beat] != '.'
  }

  /** Every channel's pattern has a character at `beat`. */
  predicate CoversBeat(channels: seq<Channel>, beat: nat) {
    forall i :: 0 <= i < |channels| ==> beat < |channels[i].beatSequence|
  }

  /** The note a hit stages: it starts now, its off time is 0, it is not yet
      active, and it plays the channel's instrument. */
  function StagedNote(ch: Channel, beat: nat, currentTime: real): Note
    requires beat < |ch.beatSequence|
  {
    Note(HitPitch(ch.beatSequence[beat]), currentTime, 0.0, false, Some(ch.instrument))
  }

  /** The notes one step stages, channel by channel in table order. */
  function StageBeat(channels: seq<Channel>, beat: nat, currentTime: real): seq<Note>
    requires CoversBeat(channels, beat)
  {
    if channels == [] then []
    else
      var last := channels[|channels| - 1];
      StageBeat(channels[..|channels| - 1], beat, currentTime)
      + (if IsHit(last, beat) then [StagedNote(last, beat, currentTime)] else [])
  }

  /** A step stages at most one note per channel, and every staged note has
      the shape of a hit of some channel. */
  lemma {:induction false} StageBeatSound(channels: seq<Channel>, beat: nat, currentTime: real)
    requires CoversBeat(channels, beat)
    ensures |StageBeat(channels, beat, currentTime)| <= |channels|
    ensures forall n :: n in StageBeat(channels, beat, currentTime) ==>
              n.onTime == currentTime && n.offTime == 0.0 && !n.isActive &&
              exists i :: 0 <= i < |channels| && IsHit(channels[i], beat) &&
                          n == StagedNote(channels[i], beat, currentTime)
  {
    if channels != [] {
      var front := channels[..|channels| - 1];
      StageBeatSound(front, beat, currentTime);
      forall n | n in StageBeat(channels, beat, currentTime)
        ensures exists i :: 0 <= i < |channels| && IsHit(channels[i], beat) &&
                            n == StagedNote(channels[i], beat, currentTime)
      {
        if n in StageBeat(front, beat, currentTime) {
          var i :| 0 <= i < |front| && IsHit(front[i], beat) && n == StagedNote(front[i], beat, currentTime);
          assert channels[i] == front[i];
        } else {
          assert n == StagedNote(channels[|channels| - 1], beat, currentTime);
        }
      }
    }
  }

  /** Every channel with a hit at the step gets its note staged. */
  lemma {:induction false} StageBeatComplete(channels: seq<Channel>, beat: nat, currentTime: real, i: int)
    requires CoversBeat(channels, beat)
    requires 0 <= i < |channels| && IsHit(channels[i], beat)
    ensures StagedNote(channels[i], beat, currentTime) in StageBeat(channels, beat, currentTime)
  {
    var front := channels[..|channels| - 1];
    if i < |channels| - 1 {
      assert front[i] == channels[i];
      StageBeatComplete(front, beat, currentTime, i);
    }
  }

  /** A step in which every channel rests stages nothing. */
  lemma {:induction false} StageBeatAllRests(channels: seq<Channel>, beat: nat, currentTime: real)
    requires CoversBeat(channels, beat)
    requires forall i :: 0 <= i < |channels| ==> !IsHit(channels[i], beat)
    ensures StageBeat(channels, beat, currentTime) == []
  {
    if channels != [] {
      StageBeatAllRests(channels[..|channels| - 1], beat, currentTime);
    }
  }

  /** The first channel at or after `from` bound to an instrument. */
  function FindFrom(channels: seq<Channel>, instrument: InstrumentName, from: nat): (r: Option<nat>)
    requires from <= |channels|
    ensures r.Some? ==> from <= r.value < |channels| && channels[r.value].instrument == instrument
                        && forall j :: from <= j < r.value ==> channels[j].instrument != instrument
    ensures r.None? <==> forall j :: from <= j < |channels| ==> channels[j].instrument != instrument
    decreases |channels| - from
  {
    if from == |channels| then None
    else if channels[from].instrument == instrument then Some(from)
    else FindFrom(channels, instrument, from + 1)
  }

  /** The first channel bound to an instrument, as std::find_if finds it. */
  function FindChannel(channels: seq<Channel>, instrument: InstrumentName): (r: Option<nat>)
    ensures r.Some? ==> r.value < |channels| && channels[r.value].instrument == instrument
                        && forall j :: 0 <= j < r.value ==> channels[j].instrument != instrument
    ensures r.None? <==> forall j :: 0 <= j < |channels| ==> channels[j].instrument != instrument
  {
    FindFrom(channels, instrument, 0)
  }

  /** The pattern an instrument currently plays, if it has a channel. */
  function BarOf(channels: seq<Channel>, instrument: InstrumentName): Option<string> {
    match FindChannel(channels, instrument)
    case None => None
    case Some(i) => Some(channels[i].beatSequence)
  }

  /** No instrument is bound to two channels. */
  predicate UniqueInstruments(channels: seq<Channel>) {
    forall i, j :: 0 <= i < j < |channels| ==> channels[i].instrument != channels[j].instrument
  }

  /** The channel table after PlayBar(instrument, bar). */
  function Upsert(channels: seq<Channel>, instrument: InstrumentName, bar: string): seq<Channel> {
    match FindChannel(channels, instrument)
    case None => channels + [Channel(instrument, bar)]
    case Some(i) => channels[i := Channel(instrument, bar)]
  }

  /** PlayBar appends a channel exactly when the instrument had none, and
      otherwise replaces only that channel's pattern: every other channel
      keeps its place and its pattern. */
  lemma UpsertShape(channels: seq<Channel>, instrument: InstrumentName, bar: string)
    ensures var r := Upsert(channels, instrument, bar);
            (|r| == |channels| + 1 <==> BarOf(channels, instrument).None?) &&
            (|r| == |channels| <==> BarOf(channels, instrument).Some?) &&
            (forall j :: 0 <= j < |channels| && channels[j].instrument != instrument ==> r[j] == channels[j]) &&
            r[|r| - 1].instrument == (if |r| == |channels| then channels[|r| - 1].instrument else instrument)
  {
  }

  /** After PlayBar the instrument plays the new bar and every other
      instrument plays what it played before. */
  lemma {:induction false} UpsertBarOf(channels: seq<Channel>, instrument: InstrumentName, bar: string,
                                       other: InstrumentName)
    ensures BarOf(Upsert(channels, instrument, bar), instrument) == Some(bar)
    ensures other != instrument ==>
              BarOf(Upsert(channels, instrument, bar), other) == BarOf(channels, other)
  {
    var r := Upsert(channels, instrument, bar);
    match FindChannel(channels, instrument)
    case None =>
      FindAppended(channels, instrument, bar, instrument);
      if other != instrument {
        FindAppended(channels, instrument, bar, other);
      }
    case Some(i) =>
      FindUpdated(channels, i, Channel(instrument, bar), instrument);
      if other != instrument {
        FindUpdated(channels, i, Channel(instrument, bar), other);
      }
  }

  lemma FindAppended(channels: seq<Channel>, instrument: InstrumentName, bar: string,
                      key: InstrumentName)
    requires FindChannel(channels, instrument).None?
    ensures key != instrument ==>
              FindChannel(channels + [Channel(instrument, bar)], key) == FindChannel(channels, key)
    ensures FindChannel(channels + [Channel(instrument, bar)], instrument) == Some(|channels|)
  {
    if key != instrument {
      FindAppendedOther(channels, instrument, bar, key);
    }
    FindFirst(channels + [Channel(instrument, bar)], instrument, |channels|);
  }

  lemma FindAppendedOther(channels: seq<Channel>, instrument: InstrumentName, bar: string,
                          key: InstrumentName)
    requires key != instrument
    ensures FindChannel(channels + [Channel(instrument, bar)], key) == FindChannel(channels, key)
  {
    var r := channels + [Channel(instrument, bar)];
    match FindChannel(channels, key)
    case None =>
      assert forall j :: 0 <= j < |r| ==> r[j].instrument != key;
    case Some(k) =>
      FindFirst(r, key, k);
  }

  lemma FindUpdated(channels: seq<Channel>, i: nat, ch: Channel, key: InstrumentName)
    requires FindChannel(channels, ch.instrument) == Some(i)
    ensures FindChannel(channels[i := ch], key) == FindChannel(channels, key)
  {
    SameInstruments(channels, channels[i := ch]);
  }

  /** Two tables whose channels are bound to the same instruments, place by
      place, find the same channel for every instrument. */
  lemma SameInstruments(channels: seq<Channel>, r: seq<Channel>)
    requires |r| == |channels|
    requires forall j :: 0 <= j < |r| ==> r[j].instrument == channels[j].instrument
    ensures forall key :: FindChannel(r, key) == FindChannel(channels, key)
  {
    forall key
      ensures FindChannel(r, key) == FindChannel(channels, key)
    {
      match FindChannel(channels, key)
      case None =>
      case Some(k) =>
        FindFirst(r, key, k);
    }
  }

  /** PlayBar keeps every instrument on at most one channel. */
  lemma UpsertKeepsUnique(channels: seq<Channel>, instrument: InstrumentName, bar: string)
    requires UniqueInstruments(channels)
    ensures UniqueInstruments(Upsert(channels, instrument, bar))
  {
  }

  /** The inner loop of Update: the note of every channel with a hit at
      `beat`, in channel order. */
  method StageStep(channels: seq<Channel>, beat: nat, currentTime: real) returns (staged: seq<Note>)
    requires CoversBeat(channels, beat)
    ensures staged == StageBeat(channels, beat, currentTime)
  {
    staged := [];
    var i := 0;
    while i < |channels|
      invariant 0 <= i <= |channels|
      invariant staged == StageBeat(channels[..i], beat, currentTime)
    {
      var channel := channels[i];
      assert channels[..i + 1][..i] == channels[..i];
      if channel.beatSequence[beat] != '.' {
        staged := staged + [StagedNote(channel, beat, currentTime)];
      }
      i := i + 1;
    }
    assert channels[..i] == channels;
  }

  /** Advancing a step modulo the bar length wraps exactly at the last step. */
  lemma NextBeat(beat: int, totalBeats: int)
    requires 0 <= beat < totalBeats
    ensures (beat + 1) % totalBeats == if beat == totalBeats - 1 then 0 else beat + 1
  {
    if beat + 1 < totalBeats {
      assert (beat + 1) / totalBeats == 0;
    } else {
      assert (beat + 1) / totalBeats == 1;
    }
  }

  class Sequencer {
    var beatTime: real
    var accumulate: real
    var currentBeat: int
    var totalBeats: int
    var channels: seq<Channel>
    var notes: seq<Note>

    predicate Valid()
      reads this
    {
      beatTime > 0.0 && totalBeats > 0 && 0 <= currentBeat < totalBeats
    }

    /** Every channel's pattern has a character for every step of the bar. */
    predicate PatternsCoverBar()
      reads this
    {
      forall i :: 0 <= i < |channels| ==> |channels[i].beatSequence| >= totalBeats
    }

    /** A bar of `beats` beats of `subBeats` steps each, at `tempo` beats
        per minute: one step lasts a subBeats-th of a beat. */
    constructor (tempo: real, beats: int, subBeats: int)
      requires tempo > 0.0 && beats > 0 && subBeats > 0
      ensures Valid()
      ensures beatTime == (60.0 / tempo) / subBeats as real
      ensures totalBeats == subBeats * beats
      ensures currentBeat == 0 && accumulate == 0.0
      ensures channels == [] && notes == []
    {
      beatTime := (60.0 / tempo) / subBeats as real;
      currentBeat := 0;
      totalBeats := subBeats * beats;
      accumulate := 0.0;
      channels := [];
      notes := [];
    }

    /** The opening of Update: the notes of the previous call are dropped
        and the elapsed time is added to the accumulator. */
    method BeginUpdate(deltaTime: real)
      modifies this
      ensures notes == [] && accumulate == old(accumulate) + deltaTime
      ensures beatTime == old(beatTime) && currentBeat == old(currentBeat)
      ensures totalBeats == old(totalBeats) && channels == old(channels)
    {
      notes := [];
      accumulate := accumulate + deltaTime;
    }

    /** One pass of Update's loop: stage the notes of the current step,
        consume one step of time and advance the step modulo the bar.
        `wrapped` says that the bar ended, i.e. the step came back to 0. */
    method Step(currentTime: real) returns (wrapped: bool)
      requires Valid() && PatternsCoverBar()
      modifies this
      ensures beatTime == old(beatTime) && totalBeats == old(totalBeats) && channels == old(channels)
      ensures Valid() && PatternsCoverBar()
      ensures notes == old(notes) + StageBeat(channels, old(currentBeat), currentTime)
      ensures accumulate == old(accumulate) - beatTime
      ensures currentBeat == (old(currentBeat) + 1) % totalBeats
      ensures wrapped <==> currentBeat == 0
      ensures wrapped <==> old(currentBeat) == totalBeats - 1
    {
      var staged := StageStep(channels, currentBeat, currentTime);
      notes := notes + staged;
      accumulate := accumulate - beatTime;
      NextBeat(currentBeat, totalBeats);
      currentBeat := (currentBeat + 1) % totalBeats;
      wrapped := currentBeat == 0;
    }

    /** Sequencer::PlayBar: bind `bar` to `instrument`, replacing the
        pattern of its channel or appending a new channel. */
    method PlayBar(instrument: InstrumentName, bar: string)
      modifies this
      ensures channels == Upsert(old(channels), instrument, bar)
      ensures beatTime == old(beatTime) && accumulate == old(accumulate)
      ensures currentBeat == old(currentBeat) && totalBeats == old(totalBeats) && notes == old(notes)
    {
      var i := 0;
      while i < |channels| && channels[i].instrument != instrument
        invariant 0 <= i <= |channels|
        invariant forall j :: 0 <= j < i ==> channels[j].instrument != instrument
      {
        i := i + 1;
      }
      if i == |channels| {
        channels := channels + [Channel(instrument, bar)];
      } else {
        FindFirst(channels, instrument, i);
        channels := channels[i := Channel(instrument, bar)];
      }
    }
  }

  lemma FindFirst(channels: seq<Channel>, instrument: InstrumentName, i: nat)
    requires i < |channels| && channels[i].instrument == instrument
    requires forall j :: 0 <= j < i ==> channels[j].instrument != instrument
    ensures FindChannel(channels, instrument) == Some(i)
  {
  }
}
