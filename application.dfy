/** The application that wires the parts together: the list of notes
    being played, the mixing pass run for every sample, the keyboard, the
    sequencer with the bar reprogramming run at the end of every bar, the
    state machine fed with the socket's mood, and the session history.
    Every global of the program is a field of one Engine object, and each
    pass of the main loop is a method on it. */
module App {
  import opened Wrappers
  import opened Instruments
  import opened Sequencing
  import opened MoodMachine
  import opened Phrase
  import opened Session
  import opened Server

  // ---------------------------------------------------------------------
  // SafeRemove

  /** The notes `keep` accepts, in their original order. */
  function Filter(notes: seq<Note>, keep: Note -> bool): seq<Note> {
    if notes == [] then []
    else Filter(notes[..|notes| - 1], keep) + (if keep(notes[|notes| - 1]) then [notes[|notes| - 1]] else [])
  }

  /** A note survives the filter exactly when it was there and is kept. */
  lemma {:induction false} FilterMembers(notes: seq<Note>, keep: Note -> bool)
    ensures forall n :: n in Filter(notes, keep) <==> n in notes && keep(n)
  {
    if notes != [] {
      var front := notes[..|notes| - 1];
      FilterMembers(front, keep);
      assert notes == front + [notes[|notes| - 1]];
    }
  }

  /** Filtering works piecewise, so the survivors keep their relative order. */
  lemma {:induction false} FilterAppend(a: seq<Note>, b: seq<Note>, keep: Note -> bool)
    ensures Filter(a + b, keep) == Filter(a, keep) + Filter(b, keep)
    decreases |b|
  {
    if b == [] {
      assert a + b == a;
    } else {
      var front := b[..|b| - 1];
      assert (a + b)[..|a + b| - 1] == a + front;
      FilterAppend(a, front, keep);
    }
  }

  /** A list whose every note is kept passes through unchanged. */
  lemma {:induction false} FilterAllKept(notes: seq<Note>, keep: Note -> bool)
    requires forall i :: 0 <= i < |notes| ==> keep(notes[i])
    ensures Filter(notes, keep) == notes
  {
    if notes != [] {
      FilterAllKept(notes[..|notes| - 1], keep);
    }
  }

  /** SafeRemove: walk the list with one cursor, erasing each note the
      predicate rejects and stepping over the others. */
  method SafeRemove(notes: seq<Note>, keep: Note -> bool) returns (kept: seq<Note>)
    ensures kept == Filter(notes, keep)
  {
    kept := notes;
    var noteToRemove := 0;
    ghost var read := 0;
    while noteToRemove < |kept|
      invariant 0 <= noteToRemove <= |kept| && 0 <= read <= |notes|
      invariant kept[..noteToRemove] == Filter(notes[..read], keep)
      invariant kept[noteToRemove..] == notes[read..]
      decreases |kept| - noteToRemove
    {
      assert notes[..read + 1][..read] == notes[..read];
      assert notes[read] == kept[noteToRemove];
      if !keep(kept[noteToRemove]) {
        kept := kept[..noteToRemove] + kept[noteToRemove + 1..];
        assert kept[noteToRemove..] == notes[read + 1..];
      } else {
        assert kept[..noteToRemove + 1] == kept[..noteToRemove] + [notes[read]];
        noteToRemove := noteToRemove + 1;
      }
      read := read + 1;
    }
    assert notes[..read] == notes;
  }

  // ---------------------------------------------------------------------
  // MapValueReverse and the filter cutoff

  /** MapValueReverse: map `value` from [min1, max1] onto the target range,
      reversed, so that min1 goes to max2 + min2 and max1 goes to 0. */
  function MapValueReverse(value: real, max1: real, min1: real, max2: real, min2: real): (r: real)
    requires max1 != min1
    ensures value == min1 ==> r == max2 + min2
    ensures value == max1 ==> r == 0.0
  {
    var percentage := (value - min1) / (max1 - min1);
    var resultMaped := (percentage * (max2 + min2)) - min2;
    max2 - resultMaped
  }

  /** The mapping is reversed: a larger value maps lower. */
  lemma MapValueReverseDecreasing(v1: real, v2: real, max1: real, min1: real, max2: real, min2: real)
    requires max1 > min1 && max2 + min2 > 0.0 && v1 < v2
    ensures MapValueReverse(v1, max1, min1, max2, min2) > MapValueReverse(v2, max1, min1, max2, min2)
  {
    DivideStrict(v1 - min1, v2 - min1, max1 - min1);
    MultiplyStrict((v1 - min1) / (max1 - min1), (v2 - min1) / (max1 - min1), max2 + min2);
  }

  lemma MultiplyStrict(x: real, y: real, k: real)
    requires x < y && k > 0.0
    ensures x * k < y * k
  {
    assert y * k - x * k == (y - x) * k;
  }

  lemma DivideStrict(a1: real, a2: real, w: real)
    requires a1 < a2 && w > 0.0
    ensures a1 / w < a2 / w
  {
    assert (a2 / w - a1 / w) * w == a2 - a1;
    PositiveQuotient(a2 / w - a1 / w, w);
  }

  lemma PositiveQuotient(x: real, w: real)
    requires w > 0.0 && x * w > 0.0
    ensures x > 0.0
  {
  }

  /** The low-pass cutoff MakeNoise sets from the mood. */
  function Cutoff(mood: int): real {
    MapValueReverse(mood as real, 90.0, 10.0, 3.0, 0.0)
  }

  /** Mood 10, the initial one, opens the filter to 3; mood 90 closes it
      to 0; in between the cutoff falls as the mood rises. */
  lemma CutoffRange(m1: int, m2: int)
    ensures Cutoff(10) == 3.0 && Cutoff(90) == 0.0
    ensures m1 < m2 ==> Cutoff(m1) > Cutoff(m2)
  {
    if m1 < m2 {
      MapValueReverseDecreasing(m1 as real, m2 as real, 90.0, 10.0, 3.0, 0.0);
    }
  }

  // ---------------------------------------------------------------------
  // The mixing pass

  predicate SoundsDefined(notes: seq<Note>, time: real) {
    forall i :: 0 <= i < |notes| ==> NoteSoundDefined(notes[i], time)
  }

  /** The sum of every note's sample. */
  function Mix(notes: seq<Note>, wave: Waveform, time: real): real
    requires SoundsDefined(notes, time)
  {
    if notes == [] then 0.0
    else Mix(notes[..|notes| - 1], wave, time) + NoteSound(notes[|notes| - 1], wave, time).0
  }

  /** Every note after Sound: its IsActive set from its instrument. */
  function Played(notes: seq<Note>, wave: Waveform, time: real): (r: seq<Note>)
    requires SoundsDefined(notes, time)
    ensures |r| == |notes|
    ensures forall i :: 0 <= i < |notes| ==> r[i] == NoteSound(notes[i], wave, time).1
  {
    seq(|notes|, i requires 0 <= i < |notes| => NoteSound(notes[i], wave, time).1)
  }

  function IsActive(note: Note): bool {
    note.isActive
  }

  /** Pruning loses no sound: the notes it removes were silent, so the mix
      equals the mix of the notes that remain. */
  lemma {:induction false} PruneKeepsMix(notes: seq<Note>, wave: Waveform, time: real)
    requires SoundsDefined(notes, time)
    ensures SoundsDefined(Filter(Played(notes, wave, time), IsActive), time)
    ensures Mix(notes, wave, time) == Mix(Filter(Played(notes, wave, time), IsActive), wave, time)
  {
    if notes != [] {
      var front := notes[..|notes| - 1];
      var last := notes[|notes| - 1];
      PruneKeepsMix(front, wave, time);
      var played := Played(notes, wave, time);
      assert played == Played(front, wave, time) + [played[|notes| - 1]];
      FilterAppend(Played(front, wave, time), [played[|notes| - 1]], IsActive);
      var p := NoteSound(last, wave, time).1;
      assert [p][..0] == [];
      var survivors := Filter(Played(front, wave, time), IsActive);
      if p.isActive {
        assert Filter([p], IsActive) == [p];
        MixSnoc(survivors, p, wave, time);
        assert NoteSound(p, wave, time).0 == NoteSound(last, wave, time).0;
      } else {
        assert Filter([p], IsActive) == [];
        assert survivors + [] == survivors;
      }
    }
  }

  /** MakeNoise's first loop: sound every note in list order, summing the
      samples and storing each note back with its new IsActive. */
  method SoundNotes(notes: seq<Note>, wave: Waveform, time: real) returns (mixedOutput: real, played: seq<Note>)
    requires SoundsDefined(notes, time)
    ensures mixedOutput == Mix(notes, wave, time)
    ensures played == Played(notes, wave, time)
  {
    played := notes;
    mixedOutput := 0.0;
    var i := 0;
    while i < |notes|
      invariant 0 <= i <= |notes| == |played|
      invariant forall j :: 0 <= j < i ==> played[j] == NoteSound(notes[j], wave, time).1
      invariant forall j :: i <= j < |notes| ==> played[j] == notes[j]
      invariant mixedOutput == Mix(notes[..i], wave, time)
    {
      assert notes[..i + 1][..i] == notes[..i];
      var sounded := NoteSound(played[i], wave, time);
      mixedOutput := mixedOutput + sounded.0;
      played := played[i := sounded.1];
      i := i + 1;
    }
    assert notes[..i] == notes;
  }

  lemma MixSnoc(notes: seq<Note>, n: Note, wave: Waveform, time: real)
    requires SoundsDefined(notes, time) && NoteSoundDefined(n, time)
    ensures SoundsDefined(notes + [n], time)
    ensures Mix(notes + [n], wave, time) == Mix(notes, wave, time) + NoteSound(n, wave, time).0
  {
    assert (notes + [n])[..|notes|] == notes;
  }

  // ---------------------------------------------------------------------
  // The keyboard

  /** The number of keys polled, "1Q2WE4R5TY7U8I9OP"; key k plays scale
      position k - 1. */
  const KeyCount: int := 17

  predicate IsTestNoteAt(note: Note, position: int) {
    note.scalePosition == position && note.channel == Some(TestInstrument)
  }

  /** The first note of the Test instrument at a scale position. */
  function TestNoteAt(notes: seq<Note>, position: int): (r: Option<nat>)
    ensures r.Some? ==> r.value < |notes| && IsTestNoteAt(notes[r.value], position) &&
                        forall j :: 0 <= j < r.value ==> !IsTestNoteAt(notes[j], position)
    ensures r.None? <==> forall j :: 0 <= j < |notes| ==> !IsTestNoteAt(notes[j], position)
  {
    if notes == [] then None
    else if IsTestNoteAt(notes[0], position) then Some(0)
    else match TestNoteAt(notes[1..], position)
         case None => None
         case Some(k) => Some(k + 1)
  }

  /** find_if over the playing notes. */
  method FindTestNote(notes: seq<Note>, position: int) returns (found: Option<nat>)
    ensures found == TestNoteAt(notes, position)
  {
    var i := 0;
    while i < |notes| && !IsTestNoteAt(notes[i], position)
      invariant 0 <= i <= |notes|
      invariant forall j :: 0 <= j < i ==> !IsTestNoteAt(notes[j], position)
    {
      i := i + 1;
    }
    if i == |notes| {
      return None;
    }
    FirstTestNote(notes, position, i);
    return Some(i);
  }

  lemma {:induction false} FirstTestNote(notes: seq<Note>, position: int, i: nat)
    requires i < |notes| && IsTestNoteAt(notes[i], position)
    requires forall j :: 0 <= j < i ==> !IsTestNoteAt(notes[j], position)
    ensures TestNoteAt(notes, position) == Some(i)
  {
    if i > 0 {
      FirstTestNote(notes[1..], position, i - 1);
    }
  }

  /** What one key does to the playing notes. */
  function KeyStep(notes: seq<Note>, position: int, pressed: bool, timeNow: real): seq<Note> {
    match TestNoteAt(notes, position)
    case None =>
      if pressed then notes + [Note(position, timeNow, 0.0, true, Some(TestInstrument))] else notes
    case Some(i) =>
      var n := notes[i];
      if pressed then
        if n.offTime > n.onTime then notes[i := n.(onTime := timeNow, isActive := true)] else notes
      else
        if n.offTime < n.onTime then notes[i := n.(offTime := timeNow)] else notes
  }

  /** A Test note is added only for a pressed key without one, as an
      active note starting now with off time 0. */
  lemma KeyStepAdds(notes: seq<Note>, position: int, pressed: bool, timeNow: real)
    ensures var r := KeyStep(notes, position, pressed, timeNow);
            (|r| == |notes| + 1 <==> pressed && TestNoteAt(notes, position).None?) &&
            (|r| != |notes| + 1 ==> |r| == |notes|) &&
            (|r| == |notes| + 1 ==> r == notes + [Note(position, timeNow, 0.0, true, Some(TestInstrument))])
  {
  }

  /** A pressed key whose note was released restarts it: on time now and
      active, off time kept.  A released key whose note is held releases
      it now.  Otherwise the note is left as it is, and no other note
      changes. */
  lemma KeyStepUpdates(notes: seq<Note>, position: int, pressed: bool, timeNow: real, i: nat)
    requires TestNoteAt(notes, position) == Some(i)
    ensures var r := KeyStep(notes, position, pressed, timeNow);
            var n := notes[i];
            |r| == |notes| &&
            (forall j :: 0 <= j < |notes| && j != i ==> r[j] == notes[j]) &&
            r[i] == (if pressed && n.offTime > n.onTime then n.(onTime := timeNow, isActive := true)
                     else if !pressed && n.offTime < n.onTime then n.(offTime := timeNow)
                     else n)
  {
  }

  predicate IsTestNote(note: Note) {
    note.channel == Some(TestInstrument)
  }

  /** No two Test notes share a scale position. */
  predicate UniqueTestNotes(notes: seq<Note>) {
    forall i, j :: 0 <= i < j < |notes| && IsTestNote(notes[i]) && IsTestNote(notes[j]) ==>
      notes[i].scalePosition != notes[j].scalePosition
  }

  /** A key step keeps Test notes unique by scale position. */
  lemma KeyStepKeepsUnique(notes: seq<Note>, position: int, pressed: bool, timeNow: real)
    requires UniqueTestNotes(notes)
    ensures UniqueTestNotes(KeyStep(notes, position, pressed, timeNow))
  {
    var r := KeyStep(notes, position, pressed, timeNow);
    match TestNoteAt(notes, position)
    case None =>
      if pressed {
        forall a, b | 0 <= a < b < |r| && IsTestNote(r[a]) && IsTestNote(r[b])
          ensures r[a].scalePosition != r[b].scalePosition
        {
          if b == |notes| {
            assert !IsTestNoteAt(notes[a], position);
          }
        }
      }
    case Some(i) =>
      forall a, b | 0 <= a < b < |r| && IsTestNote(r[a]) && IsTestNote(r[b])
        ensures r[a].scalePosition != r[b].scalePosition
      {
        assert r[a].channel == notes[a].channel && r[a].scalePosition == notes[a].scalePosition;
        assert r[b].channel == notes[b].channel && r[b].scalePosition == notes[b].scalePosition;
      }
  }

  /** Sounding the notes changes no scale position or instrument. */
  lemma PlayedKeepsUnique(notes: seq<Note>, wave: Waveform, time: real)
    requires SoundsDefined(notes, time) && UniqueTestNotes(notes)
    ensures UniqueTestNotes(Played(notes, wave, time))
  {
    var r := Played(notes, wave, time);
    assert forall i :: 0 <= i < |notes| ==> r[i].channel == notes[i].channel && r[i].scalePosition == notes[i].scalePosition;
  }

  /** Removing notes keeps Test notes unique. */
  lemma {:induction false} FilterKeepsUnique(notes: seq<Note>, keep: Note -> bool)
    requires UniqueTestNotes(notes)
    ensures UniqueTestNotes(Filter(notes, keep))
  {
    if notes != [] {
      var front := notes[..|notes| - 1];
      var last := notes[|notes| - 1];
      FilterKeepsUnique(front, keep);
      FilterMembers(front, keep);
      var f := Filter(front, keep);
      if keep(last) {
        var r := f + [last];
        forall a, b | 0 <= a < b < |r| && IsTestNote(r[a]) && IsTestNote(r[b])
          ensures r[a].scalePosition != r[b].scalePosition
        {
          if b == |f| {
            assert f[a] in front;
            var k :| 0 <= k < |front| && front[k] == f[a];
            assert notes[k] == f[a];
          }
        }
      }
    }
  }

  /** Appending notes of other instruments keeps Test notes unique. */
  lemma AppendOthersKeepsUnique(notes: seq<Note>, others: seq<Note>)
    requires UniqueTestNotes(notes)
    requires forall n :: n in others ==> !IsTestNote(n)
    ensures UniqueTestNotes(notes + others)
  {
    var r := notes + others;
    assert forall b :: |notes| <= b < |r| ==> r[b] == others[b - |notes|] && r[b] in others;
  }

  /** The 17 keys polled in order. */
  function PollKeys(notes: seq<Note>, pressed: seq<bool>, k: nat, timeNow: real): seq<Note>
    requires k <= |pressed|
  {
    if k == 0 then notes
    else KeyStep(PollKeys(notes, pressed, k - 1, timeNow), k - 2, pressed[k - 1], timeNow)
  }

  lemma {:induction false} PollKeysKeepsUnique(notes: seq<Note>, pressed: seq<bool>, k: nat, timeNow: real)
    requires k <= |pressed| && UniqueTestNotes(notes)
    ensures UniqueTestNotes(PollKeys(notes, pressed, k, timeNow))
  {
    if k > 0 {
      PollKeysKeepsUnique(notes, pressed, k - 1, timeNow);
      KeyStepKeepsUnique(PollKeys(notes, pressed, k - 1, timeNow), k - 2, pressed[k - 1], timeNow);
    }
  }

  /** Polling never drops a note: the list only grows, one note per key
      at most. */
  lemma {:induction false} PollKeysGrows(notes: seq<Note>, pressed: seq<bool>, k: nat, timeNow: real)
    requires k <= |pressed|
    ensures |notes| <= |PollKeys(notes, pressed, k, timeNow)| <= |notes| + k
  {
    if k > 0 {
      PollKeysGrows(notes, pressed, k - 1, timeNow);
      KeyStepAdds(PollKeys(notes, pressed, k - 1, timeNow), k - 2, pressed[k - 1], timeNow);
    }
  }

  // ---------------------------------------------------------------------
  // Bar reprogramming

  /** A bar of 16 rests. */
  const RestBar: string := "................"

  /** The twelve-bar blues progression in A minor, one chord per bar. */
  const TwelveBarBlues: string := "ADAADDAAEDAE"

  /** The chord bar of a measure: the chord's letter on the first step,
      rests on the other fifteen. */
  function ChordBar(index: int): (bar: string)
    requires 0 <= index < 12
    ensures |bar| == BarLength && bar[0] == TwelveBarBlues[index]
    ensures forall j :: 1 <= j < BarLength ==> bar[j] == '.'
  {
    RestBar[0 := TwelveBarBlues[index]]
  }

  /** The eight chord and user instruments, all silenced first. */
  predicate Refreshed(inst: InstrumentName) {
    inst == CordPlayer || inst == CordBase || inst == UserSensor ||
    inst == CordInversion || inst == CordBaseInverted || inst == UserSensorInversion ||
    inst == CordDiminished || inst == UserSensorDiminished
  }

  /** The chord, bass and user instruments a chord change plays through. */
  datatype Voices = Voices(chord: InstrumentName, bass: InstrumentName, user: InstrumentName)

  function VoicesFor(change: ChordChange): (v: Voices)
    ensures Refreshed(v.chord) && Refreshed(v.bass) && Refreshed(v.user)
    ensures v.chord != v.user && v.bass != v.user && v.chord != v.bass
  {
    match change
    case Inverted => Voices(CordInversion, CordBaseInverted, UserSensorInversion)
    case Diminished => Voices(CordDiminished, CordBase, UserSensorDiminished)
    case Normal => Voices(CordPlayer, CordBase, UserSensor)
  }

  /** A list of PlayBar calls, each an instrument and its new bar. */
  type Edits = seq<Channel>

  /** The channel table after the PlayBar calls of a list, in list order. */
  function UpsertAll(channels: seq<Channel>, edits: Edits): seq<Channel>
    decreases |edits|
  {
    if edits == [] then channels
    else
      var last := edits[|edits| - 1];
      Upsert(UpsertAll(channels, edits[..|edits| - 1]), last.instrument, last.beatSequence)
  }

  /** The bar a list of PlayBar calls gives an instrument last, if any. */
  function LastBar(edits: Edits, inst: InstrumentName): (r: Option<string>)
    ensures r.None? <==> forall j :: 0 <= j < |edits| ==> edits[j].instrument != inst
    decreases |edits|
  {
    if edits == [] then None
    else if edits[|edits| - 1].instrument == inst then Some(edits[|edits| - 1].beatSequence)
    else LastBar(edits[..|edits| - 1], inst)
  }

  /** RefreshPhrase's first eight PlayBar calls: a bar of rests for every
      chord and user instrument. */
  const SilenceEdits: Edits := [Channel(CordPlayer, RestBar), Channel(CordBase, RestBar),
                                Channel(UserSensor, RestBar), Channel(CordInversion, RestBar),
                                Channel(CordBaseInverted, RestBar), Channel(UserSensorInversion, RestBar),
                                Channel(CordDiminished, RestBar), Channel(UserSensorDiminished, RestBar)]

  /** RefreshPhrase's switch: the chord and bass voices of the change get
      the chord bar, its user voice the player's phrase. */
  function VoiceEdits(change: ChordChange, chordBar: string, playerBar: string): Edits {
    var v := VoicesFor(change);
    [Channel(v.chord, chordBar), Channel(v.bass, chordBar), Channel(v.user, playerBar)]
  }

  /** The channel table after RefreshPhrase's eleven PlayBar calls. */
  function Reprogrammed(channels: seq<Channel>, change: ChordChange, chordBar: string, playerBar: string): seq<Channel> {
    UpsertAll(channels, SilenceEdits + VoiceEdits(change, chordBar, playerBar))
  }

  /** What every instrument plays after RefreshPhrase: the three voices of
      the change play the chord bar and the player's phrase, the other
      five chord and user instruments rest, and every other instrument
      plays what it played before. */
  function BarAfterRefresh(channels: seq<Channel>, inst: InstrumentName, change: ChordChange,
                           chordBar: string, playerBar: string): Option<string> {
    var v := VoicesFor(change);
    if inst == v.user then Some(playerBar)
    else if inst == v.chord || inst == v.bass then Some(chordBar)
    else if Refreshed(inst) then Some(RestBar)
    else BarOf(channels, inst)
  }

  /** One more PlayBar call at the end of a list. */
  lemma UpsertAllPrefix(channels: seq<Channel>, edits: Edits, k: int)
    requires 0 <= k < |edits|
    ensures UpsertAll(channels, edits[..k + 1]) ==
            Upsert(UpsertAll(channels, edits[..k]), edits[k].instrument, edits[k].beatSequence)
  {
    assert edits[..k + 1][..k] == edits[..k];
  }

  /** Two lists of PlayBar calls run one after the other. */
  lemma {:induction false} UpsertAllAppend(channels: seq<Channel>, a: Edits, b: Edits)
    ensures UpsertAll(channels, a + b) == UpsertAll(UpsertAll(channels, a), b)
    decreases |b|
  {
    if b == [] {
      assert a + b == a;
    } else {
      assert (a + b)[..|a + b| - 1] == a + b[..|b| - 1];
      UpsertAllAppend(channels, a, b[..|b| - 1]);
    }
  }

  /** After a list of PlayBar calls an instrument plays the bar the list
      gave it last, or, if the list never names it, what it played before. */
  lemma {:induction false} UpsertAllBarOf(channels: seq<Channel>, edits: Edits, inst: InstrumentName)
    ensures BarOf(UpsertAll(channels, edits), inst) ==
            if LastBar(edits, inst).Some? then LastBar(edits, inst) else BarOf(channels, inst)
    decreases |edits|
  {
    if edits != [] {
      var last := edits[|edits| - 1];
      UpsertAllBarOf(channels, edits[..|edits| - 1], inst);
      UpsertBarOf(UpsertAll(channels, edits[..|edits| - 1]), last.instrument, last.beatSequence, inst);
    }
  }

  /** The last bar of two lists is the second's if it names the instrument. */
  lemma {:induction false} LastBarAppend(a: Edits, b: Edits, inst: InstrumentName)
    ensures LastBar(a + b, inst) == if LastBar(b, inst).Some? then LastBar(b, inst) else LastBar(a, inst)
    decreases |b|
  {
    if b == [] {
      assert a + b == a;
    } else {
      assert (a + b)[..|a + b| - 1] == a + b[..|b| - 1];
      LastBarAppend(a, b[..|b| - 1], inst);
    }
  }

  /** In a list that gives every instrument the same bar, the last bar of
      an instrument the list names is that bar. */
  lemma {:induction false} LastBarUniform(edits: Edits, inst: InstrumentName, bar: string)
    requires forall j :: 0 <= j < |edits| ==> edits[j].beatSequence == bar
    ensures LastBar(edits, inst).Some? ==> LastBar(edits, inst) == Some(bar)
    decreases |edits|
  {
    if edits != [] && edits[|edits| - 1].instrument != inst {
      LastBarUniform(edits[..|edits| - 1], inst, bar);
    }
  }

  lemma SilenceEditsBars(inst: InstrumentName)
    ensures LastBar(SilenceEdits, inst) == if Refreshed(inst) then Some(RestBar) else None
  {
    if Refreshed(inst) {
      SilencedGetRests(inst);
    } else {
      OthersNotSilenced(inst);
    }
  }

  lemma SilencedGetRests(inst: InstrumentName)
    requires Refreshed(inst)
    ensures LastBar(SilenceEdits, inst) == Some(RestBar)
  {
    LastBarUniform(SilenceEdits, inst, RestBar);
    var j := if inst == CordPlayer then 0 else if inst == CordBase then 1 else if inst == UserSensor then 2
             else if inst == CordInversion then 3 else if inst == CordBaseInverted then 4
             else if inst == UserSensorInversion then 5 else if inst == CordDiminished then 6 else 7;
    assert SilenceEdits[j].instrument == inst;
  }

  lemma OthersNotSilenced(inst: InstrumentName)
    requires !Refreshed(inst)
    ensures LastBar(SilenceEdits, inst) == None
  {
    var e := SilenceEdits;
    forall j | 0 <= j < |e|
      ensures e[j].instrument != inst
    {
      assert j == 0 || j == 1 || j == 2 || j == 3 || j == 4 || j == 5 || j == 6 || j == 7;
    }
  }

  lemma VoiceEditsBars(change: ChordChange, chordBar: string, playerBar: string, inst: InstrumentName)
    ensures var v := VoicesFor(change);
            LastBar(VoiceEdits(change, chordBar, playerBar), inst) ==
              if inst == v.user then Some(playerBar)
              else if inst == v.chord || inst == v.bass then Some(chordBar)
              else None
  {
    var e := VoiceEdits(change, chordBar, playerBar);
    assert e[..1][..0] == [] && e[..2][..1] == e[..1] && e[..|e| - 1] == e[..2];
    assert LastBar(e[..1], inst) == if e[0].instrument == inst then Some(e[0].beatSequence) else None;
    assert LastBar(e[..2], inst) == if e[1].instrument == inst then Some(e[1].beatSequence) else LastBar(e[..1], inst);
  }

  /** RefreshPhrase's eleven PlayBar calls give every instrument the bar
      BarAfterRefresh names. */
  lemma ReprogrammedBarOf(channels: seq<Channel>, inst: InstrumentName, change: ChordChange,
                          chordBar: string, playerBar: string)
    ensures BarOf(Reprogrammed(channels, change, chordBar, playerBar), inst) ==
            BarAfterRefresh(channels, inst, change, chordBar, playerBar)
  {
    var edits := SilenceEdits + VoiceEdits(change, chordBar, playerBar);
    UpsertAllBarOf(channels, edits, inst);
    LastBarAppend(SilenceEdits, VoiceEdits(change, chordBar, playerBar), inst);
    SilenceEditsBars(inst);
    VoiceEditsBars(change, chordBar, playerBar, inst);
  }

  /** Every pattern of a table covers n steps and keeps no Test channel. */
  predicate TableShape(channels: seq<Channel>, n: int) {
    UniqueInstruments(channels) &&
    forall i :: 0 <= i < |channels| ==> |channels[i].beatSequence| >= n && channels[i].instrument != TestInstrument
  }

  lemma UpsertKeepsShape(channels: seq<Channel>, inst: InstrumentName, bar: string, n: int)
    requires TableShape(channels, n) && |bar| >= n && inst != TestInstrument
    ensures TableShape(Upsert(channels, inst, bar), n)
  {
    UpsertKeepsUnique(channels, inst, bar);
  }

  /** PlayBar calls with long enough bars and no Test instrument keep the
      table's shape. */
  lemma {:induction false} UpsertAllKeepsShape(channels: seq<Channel>, edits: Edits, n: int)
    requires TableShape(channels, n)
    requires forall j :: 0 <= j < |edits| ==> |edits[j].beatSequence| >= n && edits[j].instrument != TestInstrument
    ensures TableShape(UpsertAll(channels, edits), n)
    decreases |edits|
  {
    if edits != [] {
      var last := edits[|edits| - 1];
      UpsertAllKeepsShape(channels, edits[..|edits| - 1], n);
      UpsertKeepsShape(UpsertAll(channels, edits[..|edits| - 1]), last.instrument, last.beatSequence, n);
    }
  }

  lemma ReprogrammedKeepsShape(channels: seq<Channel>, change: ChordChange, chordBar: string, playerBar: string)
    requires TableShape(channels, BarLength) && |chordBar| >= BarLength && |playerBar| >= BarLength
    ensures TableShape(Reprogrammed(channels, change, chordBar, playerBar), BarLength)
  {
    UpsertAllKeepsShape(channels, SilenceEdits + VoiceEdits(change, chordBar, playerBar), BarLength);
  }

  /** The drum bars main programs before the loop starts. */
  const SnareBar: string := "....A.......A..."
  const KickBar: string := "A...A...A...A..."
  const HiHatBar: string := "A.A.A.A.A.A.A.A."

  /** The three drum PlayBar calls on an empty table append one channel
      each, in call order. */
  lemma DrumTable(snare: string, kick: string, hiHat: string)
    requires |snare| >= BarLength && |kick| >= BarLength && |hiHat| >= BarLength
    ensures Upsert(Upsert(Upsert([], DrumSnare, snare), DrumKick, kick), DrumHiHat, hiHat) ==
            [Channel(DrumSnare, snare), Channel(DrumKick, kick), Channel(DrumHiHat, hiHat)]
    ensures TableShape([Channel(DrumSnare, snare), Channel(DrumKick, kick), Channel(DrumHiHat, hiHat)], BarLength)
  {
    var c1 := [Channel(DrumSnare, snare)];
    var c2 := c1 + [Channel(DrumKick, kick)];
    assert FindChannel([], DrumSnare) == None;
    assert FindChannel(c1, DrumKick) == None;
    assert FindChannel(c2, DrumHiHat) == None;
  }

  /** main's sequencer: 120 beats per minute, four beats of four steps,
      and the snare, kick and hi-hat bars. */
  method DrumSequencer() returns (sq: Sequencer)
    ensures fresh(sq) && sq.Valid() && sq.PatternsCoverBar()
    ensures sq.beatTime == 0.125 && sq.totalBeats == BarLength && sq.currentBeat == 0 && sq.accumulate == 0.0
    ensures sq.channels == [Channel(DrumSnare, SnareBar), Channel(DrumKick, KickBar), Channel(DrumHiHat, HiHatBar)]
    ensures sq.notes == [] && TableShape(sq.channels, BarLength)
  {
    sq := new Sequencer(120.0, 4, 4);
    sq.PlayBar(DrumSnare, SnareBar);
    sq.PlayBar(DrumKick, KickBar);
    sq.PlayBar(DrumHiHat, HiHatBar);
    DrumTable(SnareBar, KickBar, HiHatBar);
  }

  /** The eight rest bars, call by call. */
  lemma SilenceEditsUnfold(c: seq<Channel>)
    ensures UpsertAll(c, SilenceEdits) ==
            Upsert(Upsert(Upsert(Upsert(Upsert(Upsert(Upsert(Upsert(c,
              CordPlayer, RestBar), CordBase, RestBar), UserSensor, RestBar), CordInversion, RestBar),
              CordBaseInverted, RestBar), UserSensorInversion, RestBar), CordDiminished, RestBar),
              UserSensorDiminished, RestBar)
  {
    var e := SilenceEdits;
    assert e[..0] == [];
    UpsertAllPrefix(c, e, 0);
    UpsertAllPrefix(c, e, 1);
    UpsertAllPrefix(c, e, 2);
    UpsertAllPrefix(c, e, 3);
    UpsertAllPrefix(c, e, 4);
    UpsertAllPrefix(c, e, 5);
    UpsertAllPrefix(c, e, 6);
    UpsertAllPrefix(c, e, 7);
    assert e[..8] == e;
  }

  /** The three voice bars, call by call. */
  lemma VoiceEditsUnfold(c: seq<Channel>, change: ChordChange, chordBar: string, playerBar: string)
    ensures var v := VoicesFor(change);
            UpsertAll(c, VoiceEdits(change, chordBar, playerBar)) ==
            Upsert(Upsert(Upsert(c, v.chord, chordBar), v.bass, chordBar), v.user, playerBar)
  {
    var e := VoiceEdits(change, chordBar, playerBar);
    assert e[..0] == [];
    UpsertAllPrefix(c, e, 0);
    UpsertAllPrefix(c, e, 1);
    UpsertAllPrefix(c, e, 2);
    assert e[..3] == e;
  }

  /** RefreshPhrase's first eight PlayBar calls. */
  method SilenceChordVoices(sq: Sequencer)
    modifies sq
    ensures sq.channels == UpsertAll(old(sq.channels), SilenceEdits)
    ensures sq.beatTime == old(sq.beatTime) && sq.accumulate == old(sq.accumulate)
    ensures sq.currentBeat == old(sq.currentBeat) && sq.totalBeats == old(sq.totalBeats) && sq.notes == old(sq.notes)
  {
    SilenceEditsUnfold(sq.channels);
    sq.PlayBar(CordPlayer, RestBar);
    sq.PlayBar(CordBase, RestBar);
    sq.PlayBar(UserSensor, RestBar);
    sq.PlayBar(CordInversion, RestBar);
    sq.PlayBar(CordBaseInverted, RestBar);
    sq.PlayBar(UserSensorInversion, RestBar);
    sq.PlayBar(CordDiminished, RestBar);
    sq.PlayBar(UserSensorDiminished, RestBar);
  }

  /** RefreshPhrase's switch on the change. */
  method PlayVoices(sq: Sequencer, change: ChordChange, chordBar: string, playerBar: string)
    modifies sq
    ensures sq.channels == UpsertAll(old(sq.channels), VoiceEdits(change, chordBar, playerBar))
    ensures sq.beatTime == old(sq.beatTime) && sq.accumulate == old(sq.accumulate)
    ensures sq.currentBeat == old(sq.currentBeat) && sq.totalBeats == old(sq.totalBeats) && sq.notes == old(sq.notes)
  {
    VoiceEditsUnfold(sq.channels, change, chordBar, playerBar);
    match change {
      case Inverted =>
        sq.PlayBar(CordInversion, chordBar);
        sq.PlayBar(CordBaseInverted, chordBar);
        sq.PlayBar(UserSensorInversion, playerBar);
      case Diminished =>
        sq.PlayBar(CordDiminished, chordBar);
        sq.PlayBar(CordBase, chordBar);
        sq.PlayBar(UserSensorDiminished, playerBar);
      case Normal =>
        sq.PlayBar(CordPlayer, chordBar);
        sq.PlayBar(CordBase, chordBar);
        sq.PlayBar(UserSensor, playerBar);
    }
  }

  /** The notes a sequencer update stages: started now, not yet active,
      and not of the Test instrument. */
  predicate StagedShape(notes: seq<Note>, currentTime: real) {
    forall i :: 0 <= i < |notes| ==> IsStaged(notes[i], currentTime)
  }

  predicate IsStaged(n: Note, currentTime: real) {
    n.onTime == currentTime && n.offTime == 0.0 && !n.isActive &&
    n.channel.Some? && n.channel.value != TestInstrument
  }

  /** The measure after `index` in the twelve-bar progression. */
  function NextMeasure(index: int): int {
    (index + 1) % 12
  }

  lemma NextBarIndex(i: int)
    requires 0 <= i < 12
    ensures NextMeasure(i) == if i == 11 then 0 else i + 1
  {
  }

  /** The notes a sequencer update stages in `steps` steps from step
      `beat` of a bar: the step that falls in the b-th bar from the start
      reads the channel table tables[b], at its place in that bar. */
  function StagedOver(tables: seq<seq<Channel>>, beat: nat, steps: nat, currentTime: real): seq<Note>
    requires beat + steps <= BarLength * |tables|
    requires ShapedTables(tables)
  {
    if steps == 0 then []
    else
      var j := beat + steps - 1;
      StagedOver(tables, beat, steps - 1, currentTime) + StageBeat(tables[j / BarLength], j % BarLength, currentTime)
  }

  /** Every table of the sequence has one full-length pattern per
      instrument and no Test channel. */
  predicate ShapedTables(tables: seq<seq<Channel>>) {
    forall b :: 0 <= b < |tables| ==> TableShape(tables[b], BarLength)
  }

  /** Tables for later bars do not change what the earlier steps staged. */
  lemma {:induction false} StagedOverPrefix(tables: seq<seq<Channel>>, more: seq<seq<Channel>>, beat: nat,
                                            steps: nat, currentTime: real)
    requires beat + steps <= BarLength * |tables|
    requires ShapedTables(tables) && ShapedTables(more)
    ensures ShapedTables(tables + more)
    ensures StagedOver(tables + more, beat, steps, currentTime) == StagedOver(tables, beat, steps, currentTime)
  {
    if steps > 0 {
      StagedOverPrefix(tables, more, beat, steps - 1, currentTime);
      var j := beat + steps - 1;
      assert (tables + more)[j / BarLength] == tables[j / BarLength];
    }
  }

  /** Every note an update stages started now, is not yet active and is
      not a Test note. */
  lemma {:induction false} StagedOverShape(tables: seq<seq<Channel>>, beat: nat, steps: nat, currentTime: real)
    requires beat + steps <= BarLength * |tables| && ShapedTables(tables)
    ensures StagedShape(StagedOver(tables, beat, steps, currentTime), currentTime)
  {
    if steps > 0 {
      StagedOverShape(tables, beat, steps - 1, currentTime);
      var j := beat + steps - 1;
      StagedNotesAreNotTest(tables[j / BarLength], j % BarLength, currentTime);
      var front := StagedOver(tables, beat, steps - 1, currentTime);
      var last := StageBeat(tables[j / BarLength], j % BarLength, currentTime);
      assert forall i :: 0 <= i < |front + last| ==>
               (front + last)[i] == if i < |front| then front[i] else last[i - |front|];
    }
  }

  /** One more step, taken at `position` of the bar the step count has
      reached, stages that step's notes from that bar's table; `more` is
      the table of the next bar when the step ends the bar. */
  lemma StagedOverStep(tables: seq<seq<Channel>>, more: seq<seq<Channel>>, beat: nat, steps: nat, bars: nat,
                       position: nat, currentTime: real)
    requires |tables| == bars + 1 && |more| <= 1
    requires ShapedTables(tables) && ShapedTables(more)
    requires beat + steps == bars * BarLength + position && position < BarLength
    ensures beat + steps + 1 <= BarLength * |tables + more| && ShapedTables(tables + more)
    ensures StagedOver(tables + more, beat, steps + 1, currentTime) ==
              StagedOver(tables, beat, steps, currentTime) + StageBeat(tables[bars], position, currentTime)
  {
    StagedOverPrefix(tables, more, beat, steps, currentTime);
    var j := beat + steps;
    assert j / BarLength == bars && j % BarLength == position;
    assert (tables + more)[bars] == tables[bars];
  }

  /** Where Update's loop stands, in values: `steps` steps have been taken
      out of the `start` seconds accumulated, at `bt` seconds a step; the
      step counter started at `beat0` and `bars` bars have ended; tables[b]
      was the channel table during the b-th bar, the last one is the
      current table, and `notes` are the notes staged so far. */
  predicate Progress(start: real, bt: real, beat0: nat, steps: nat, bars: nat, tables: seq<seq<Channel>>,
                     accumulate: real, beat: int, channels: seq<Channel>, notes: seq<Note>, currentTime: real)
  {
    bt > 0.0 &&
    steps + StepsDue(accumulate, bt) == StepsDue(start, bt) && Leftover(accumulate, bt) == Leftover(start, bt) &&
    0 <= beat < BarLength && beat0 + steps == bars * BarLength + beat &&
    |tables| == bars + 1 && tables[bars] == channels && ShapedTables(tables) &&
    beat0 + steps <= BarLength * |tables| &&
    notes == StagedOver(tables, beat0, steps, currentTime)
  }

  /** One pass of Update's loop keeps Progress: the step consumes a step's
      time, stages the step's notes from the current table and moves the
      counter on; a step that ends the bar opens a new bar whose table is
      `channels'`.  The results are the new bar count and tables. */
  lemma ProgressStep(start: real, bt: real, beat0: nat, steps: nat, bars: nat, tables: seq<seq<Channel>>,
                     accumulate: real, beat: int, channels: seq<Channel>, notes: seq<Note>, currentTime: real,
                     wrapped: bool, accumulate': real, beat': int, channels': seq<Channel>, notes': seq<Note>)
    returns (bars': nat, tables': seq<seq<Channel>>)
    requires Progress(start, bt, beat0, steps, bars, tables, accumulate, beat, channels, notes, currentTime)
    requires accumulate >= bt && accumulate' == accumulate - bt
    requires notes' == notes + StageBeat(channels, beat, currentTime)
    requires wrapped <==> beat == BarLength - 1
    requires beat' == if wrapped then 0 else beat + 1
    requires TableShape(channels', BarLength) && (!wrapped ==> channels' == channels)
    ensures bars' == if wrapped then bars + 1 else bars
    ensures tables' == tables + if wrapped then [channels'] else []
    ensures |tables'| > 0 && tables'[0] == tables[0]
    ensures Progress(start, bt, beat0, steps + 1, bars', tables', accumulate', beat', channels', notes', currentTime)
  {
    StepsDueOneLess(accumulate, bt);
    var more: seq<seq<Channel>> := if wrapped then [channels'] else [];
    StagedOverStep(tables, more, beat0, steps, bars, beat, currentTime);
    bars' := if wrapped then bars + 1 else bars;
    tables' := tables + more;
    assert tables'[0] == tables[0];
  }

  /** The measure reached from measure i after n bars. */
  function MeasuresOn(i: int, n: nat): (m: int)
    requires 0 <= i < 12
    ensures 0 <= m < 12
  {
    if n == 0 then i else NextMeasure(MeasuresOn(i, n - 1))
  }

  /** The channel tables of consecutive bars each follow from the one
      before it: at the end of bar b, in measure MeasuresOn(bar0, b), the
      table was reprogrammed by `step` with the b-th change of the state
      machine, that measure's chord bar and the b-th composed phrase.
      RefreshPhrase's step is Reprogrammed. */
  ghost predicate Chained(step: (seq<Channel>, ChordChange, string, string) -> seq<Channel>, bar0: int,
                          tables: seq<seq<Channel>>, changes: seq<ChordChange>, phrases: seq<string>)
  {
    0 <= bar0 < 12 && |tables| == |changes| + 1 && |phrases| == |changes| &&
    forall b {:trigger phrases[b]} :: 0 <= b < |changes| ==>
      tables[b + 1] == step(tables[b], changes[b], ChordBar(MeasuresOn(bar0, b)), phrases[b])
  }

  /** A bar that ends with `change` and `phrase` extends the chain by the
      table `step` programs from the last one. */
  lemma ChainedStep(step: (seq<Channel>, ChordChange, string, string) -> seq<Channel>, bar0: int,
                    tables: seq<seq<Channel>>, changes: seq<ChordChange>, phrases: seq<string>,
                    change: ChordChange, phrase: string, next: seq<Channel>)
    requires Chained(step, bar0, tables, changes, phrases)
    requires next == step(tables[|changes|], change, ChordBar(MeasuresOn(bar0, |changes|)), phrase)
    ensures Chained(step, bar0, tables + [next], changes + [change], phrases + [phrase])
  {
    var n := |changes|;
    var tables', changes', phrases' := tables + [next], changes + [change], phrases + [phrase];
    forall b | 0 <= b < n + 1
      ensures tables'[b + 1] == step(tables'[b], changes'[b], ChordBar(MeasuresOn(bar0, b)), phrases'[b])
    {
      if b < n {
        assert phrases'[b] == phrases[b];
        assert tables'[b + 1] == tables[b + 1] && tables'[b] == tables[b] && changes'[b] == changes[b];
      } else {
        assert tables'[b + 1] == next && tables'[b] == tables[n];
        assert changes'[b] == change && phrases'[b] == phrase;
      }
    }
  }

  /** The chain over all its bars, with the measure of bar b written as
      (bar0 + b) mod 12. */
  lemma ChainedBars(step: (seq<Channel>, ChordChange, string, string) -> seq<Channel>, bar0: int,
                    tables: seq<seq<Channel>>, changes: seq<ChordChange>, phrases: seq<string>)
    requires Chained(step, bar0, tables, changes, phrases)
    ensures forall b {:trigger phrases[b]} :: 0 <= b < |changes| ==>
              tables[b + 1] == step(tables[b], changes[b], ChordBar((bar0 + b) % 12), phrases[b])
  {
    forall b | 0 <= b < |changes|
      ensures tables[b + 1] == step(tables[b], changes[b], ChordBar((bar0 + b) % 12), phrases[b])
    {
      MeasuresOnWrap(bar0, b);
    }
  }

  /** The history entries of the bars that ended with the given changes. */
  function Evaluations(mood: int, changes: seq<ChordChange>): (r: seq<EvaluationMetrics>)
    ensures |r| == |changes|
    ensures forall b {:trigger changes[b]} :: 0 <= b < |changes| ==> r[b] == EvaluationMetrics(mood, changes[b])
  {
    if changes == [] then []
    else Evaluations(mood, changes[..|changes| - 1]) + [EvaluationMetrics(mood, changes[|changes| - 1])]
  }

  /** What the bars that ended so far left behind, starting from measure
      bar0 and history history0: the chain of tables, one history entry per
      change at the server's mood, and the measure reached. */
  ghost predicate Refreshes(bar0: int, history0: seq<EvaluationMetrics>, mood: int, tables: seq<seq<Channel>>,
                            changes: seq<ChordChange>, phrases: seq<string>, history: seq<EvaluationMetrics>,
                            barIndex: int)
  {
    Chained(Reprogrammed, bar0, tables, changes, phrases) && history == history0 + Evaluations(mood, changes) &&
    barIndex == MeasuresOn(bar0, |changes|)
  }

  /** One step of Update's loop keeps Refreshes: a step that ends the bar
      appends the table RefreshPhrase programmed from the last one with the
      change and phrase in the current measure, records the change at the
      mood and moves the measure on; any other step changes none of them.
      The results are the new changes and phrases. */
  lemma RefreshesStep(bar0: int, history0: seq<EvaluationMetrics>, mood: int, tables: seq<seq<Channel>>,
                      changes: seq<ChordChange>, phrases: seq<string>, history: seq<EvaluationMetrics>, barIndex: int,
                      wrapped: bool, change: ChordChange, phrase: string, tables': seq<seq<Channel>>,
                      history': seq<EvaluationMetrics>, barIndex': int)
    returns (changes': seq<ChordChange>, phrases': seq<string>)
    requires Refreshes(bar0, history0, mood, tables, changes, phrases, history, barIndex)
    requires wrapped ==> |tables'| == |tables| + 1 && tables' == tables + [tables'[|tables|]] &&
                         tables'[|tables|] == Reprogrammed(tables[|changes|], change, ChordBar(barIndex), phrase) &&
                         history' == history + [EvaluationMetrics(mood, change)] && barIndex' == NextMeasure(barIndex)
    requires !wrapped ==> tables' == tables && history' == history && barIndex' == barIndex
    ensures changes' == changes + if wrapped then [change] else []
    ensures phrases' == phrases + if wrapped then [phrase] else []
    ensures Refreshes(bar0, history0, mood, tables', changes', phrases', history', barIndex')
  {
    if wrapped {
      ChainedStep(Reprogrammed, bar0, tables, changes, phrases, change, phrase, tables'[|tables|]);
      changes', phrases' := changes + [change], phrases + [phrase];
      assert changes'[..|changes|] == changes;
    } else {
      changes', phrases' := changes, phrases;
    }
  }

  /** Refreshes read out: one change and one phrase per bar after the
      first table, the history extended by one entry per change, the
      measure (bar0 + bars) mod 12, and every bar's table reprogrammed from
      the one before it in measure (bar0 + b) mod 12. */
  lemma RefreshesBars(bar0: int, history0: seq<EvaluationMetrics>, mood: int, tables: seq<seq<Channel>>,
                      changes: seq<ChordChange>, phrases: seq<string>, history: seq<EvaluationMetrics>, barIndex: int)
    requires Refreshes(bar0, history0, mood, tables, changes, phrases, history, barIndex)
    ensures |tables| == |changes| + 1 && |phrases| == |changes| && |history| == |history0| + |changes|
    ensures history == history0 + Evaluations(mood, changes)
    ensures barIndex == (bar0 + |changes|) % 12
    ensures forall b {:trigger phrases[b]} :: 0 <= b < |changes| ==>
              tables[b + 1] == Reprogrammed(tables[b], changes[b], ChordBar((bar0 + b) % 12), phrases[b])
  {
    MeasuresOnWrap(bar0, |changes|);
    ChainedBars(Reprogrammed, bar0, tables, changes, phrases);
  }

  /** n bars on from measure i is measure (i + n) mod 12. */
  lemma {:induction false} MeasuresOnWrap(i: int, n: nat)
    requires 0 <= i < 12
    ensures MeasuresOn(i, n) == (i + n) % 12
  {
    if n > 0 {
      MeasuresOnWrap(i, n - 1);
      NextOfRemainder(i + n - 1);
    }
  }

  lemma NextOfRemainder(j: int)
    ensures NextMeasure(j % 12) == (j + 1) % 12
  {
    var q, r := j / 12, j % 12;
    if r == 11 {
      RemainderOf(j + 1, q + 1, 0);
    } else {
      RemainderOf(j + 1, q, r + 1);
    }
  }

  lemma RemainderOf(x: int, q: int, r: int)
    requires x == 12 * q + r && 0 <= r < 12
    ensures x % 12 == r
  {
  }

  lemma StagedAreNotTest(notes: seq<Note>, currentTime: real)
    requires StagedShape(notes, currentTime)
    ensures forall n :: n in notes ==> !IsTestNote(n)
  {
    forall n | n in notes
      ensures !IsTestNote(n)
    {
      var i :| 0 <= i < |notes| && notes[i] == n;
      assert IsStaged(notes[i], currentTime);
    }
  }

  /** A step over a table without Test channels stages no Test note. */
  lemma StagedNotesAreNotTest(channels: seq<Channel>, beat: nat, currentTime: real)
    requires TableShape(channels, BarLength) && beat < BarLength
    ensures StagedShape(StageBeat(channels, beat, currentTime), currentTime)
  {
    StageBeatSound(channels, beat, currentTime);
    var s := StageBeat(channels, beat, currentTime);
    assert forall i :: 0 <= i < |s| ==> s[i] in s;
  }

  /** The whole steps a sequencer update takes out of `a` seconds of
      accumulated time when a step lasts `b` seconds: Update's loop
      consumes a step while at least a step's time is left. */
  function StepsDue(a: real, b: real): nat
    requires b > 0.0
    decreases if a >= b then (a / b).Floor else 0
  {
    if a < b then 0
    else
      FloorStep(a, b);
      1 + StepsDue(a - b, b)
  }

  /** The time left over once those steps are taken. */
  function Leftover(a: real, b: real): real
    requires b > 0.0
    decreases if a >= b then (a / b).Floor else 0
  {
    if a < b then a
    else
      FloorStep(a, b);
      Leftover(a - b, b)
  }

  /** Taking one step leaves one step fewer due and the same leftover. */
  lemma StepsDueOneLess(a: real, b: real)
    requires b > 0.0 && a >= b
    ensures StepsDue(a - b, b) + 1 == StepsDue(a, b) && Leftover(a - b, b) == Leftover(a, b)
  {
  }

  /** The steps taken are the whole steps in the time, the time left is
      less than a step, and every step takes exactly a step's time. */
  lemma {:induction false} StepsDueSpec(a: real, b: real)
    requires b > 0.0
    ensures Leftover(a, b) < b
    ensures Leftover(a, b) == a - StepsDue(a, b) as real * b
    ensures a >= 0.0 ==> Leftover(a, b) >= 0.0 && StepsDue(a, b) == (a / b).Floor
    ensures a < b ==> StepsDue(a, b) == 0
    decreases if a >= b then (a / b).Floor else 0
  {
    if a < b {
      if a >= 0.0 {
        FloorBelowOne(a, b);
      }
    } else {
      FloorStep(a, b);
      StepsDueSpec(a - b, b);
      assert (StepsDue(a - b, b) + 1) as real * b == StepsDue(a - b, b) as real * b + b;
    }
  }

  /** Less than one step of time holds no whole step. */
  lemma FloorBelowOne(a: real, b: real)
    requires 0.0 <= a < b
    ensures (a / b).Floor == 0
  {
    var q := a / b;
    assert q * b == a;
    NonNegativeFactor(q, b);
    assert q < 1.0 by {
      assert (1.0 - q) * b > 0.0;
      PositiveFactor(1.0 - q, b);
    }
  }

  lemma PositiveFactor(x: real, b: real)
    requires b > 0.0 && x * b > 0.0
    ensures x > 0.0
  {
  }

  /** A character of a player's bar: a rest or a natural note. */
  predicate IsPhraseChar(c: char) {
    c == '.' || 'A' <= c <= 'G'
  }

  /** The values a random source yields while the k-th bar is composed. */
  function Stream(source: (nat, nat) -> nat, k: nat, n: nat): (r: seq<nat>)
    ensures |r| == n && forall i :: 0 <= i < n ==> r[i] == source(k, i)
  {
    seq(n, i requires 0 <= i => source(k, i))
  }

  /** A phrase of rests and natural notes, in the quantifier-free form. */
  lemma PhraseChars(phrase: string)
    requires forall i :: 0 <= i < |phrase| ==> phrase[i] == '.' || phrase[i] in Naturals
    ensures forall i :: 0 <= i < |phrase| ==> IsPhraseChar(phrase[i])
  {
    forall i | 0 <= i < |phrase|
      ensures IsPhraseChar(phrase[i])
    {
      if phrase[i] != '.' {
        var j :| 0 <= j < |Naturals| && Naturals[j] == phrase[i];
        assert 'A' <= Naturals[j] <= 'G';
      }
    }
  }

  /** The (int) cast of the hit count the state machine chose; the count
      is positive, so the cast is its floor. */
  function NoteCount(numberOfNotes: real): (n: int)
    requires 2.0 <= numberOfNotes <= 10.8
    ensures 2 <= n <= 10 && n as real <= numberOfNotes < n as real + 1.0
  {
    numberOfNotes.Floor
  }

  lemma FloorStep(a: real, b: real)
    requires b > 0.0 && a >= b
    ensures ((a - b) / b).Floor == (a / b).Floor - 1
    ensures (a / b).Floor >= 1
  {
    var q := a / b;
    var r := (a - b) / b;
    assert q * b == a;
    assert r * b == a - b;
    assert (r - (q - 1.0)) * b == 0.0;
    ZeroFactor(r - (q - 1.0), b);
    assert q >= 1.0 by {
      assert (q - 1.0) * b >= 0.0;
      NonNegativeFactor(q - 1.0, b);
    }
  }

  lemma ZeroFactor(x: real, b: real)
    requires b > 0.0 && x * b == 0.0
    ensures x == 0.0
  {
  }

  lemma NonNegativeFactor(x: real, b: real)
    requires b > 0.0 && x * b >= 0.0
    ensures x >= 0.0
  {
  }

  /** The phrase RefreshPhrase composes for the k-th bar once the state
      machine chose `numberOfNotes` and `firstNote`: GetNewPhrase's merge
      of `notes` and `beats` for the (int) cast of the count, drawn with
      the rand() values of that bar. */
  predicate ComposedFor(phrase: string, notes: string, beats: string, numberOfNotes: real, firstNote: char,
                        rand: (nat, nat) -> nat, k: nat)
    requires 2.0 <= numberOfNotes <= 10.8
  {
    var count := NoteCount(numberOfNotes);
    IsPhraseOf(phrase, notes, beats, count, firstNote, Stream(rand, k, count - 1))
  }

  // ---------------------------------------------------------------------
  // The engine

  /** The program's globals and the main loop's passes.  rand(k, i) is the
      i-th rand() value drawn while composing the k-th bar, shuffle(k, i)
      the i-th output of the shuffle engine then. */
  class Engine {
    var notesPlaying: seq<Note>
    const server: SocketServer
    const ai: StateMachine
    const sequencer: Sequencer
    const generator: NoteGenerator
    var currentBarIndex: int
    var history: seq<EvaluationMetrics>
    const rand: (nat, nat) -> nat
    const shuffle: (nat, nat) -> nat

    predicate Valid()
      reads this, sequencer, ai, generator
    {
      sequencer.Valid() && sequencer.totalBeats == BarLength && sequencer.PatternsCoverBar() &&
      TableShape(sequencer.channels, BarLength) &&
      ai.Valid() && generator.Valid() &&
      0 <= currentBarIndex < 12 &&
      UniqueTestNotes(notesPlaying)
    }

    /** main's setup: the server with mood 10, the state machine, a
        sequencer at 120 beats per minute with the snare, kick and hi-hat
        bars, and nothing playing. */
    constructor (rand: (nat, nat) -> nat, shuffle: (nat, nat) -> nat)
      ensures Valid()
      ensures server.mood == 10 && ai.currentState == Some(MoodLow)
      ensures sequencer.beatTime == 0.125 && sequencer.currentBeat == 0 && sequencer.accumulate == 0.0
      ensures sequencer.channels == [Channel(DrumSnare, SnareBar), Channel(DrumKick, KickBar), Channel(DrumHiHat, HiHatBar)]
      ensures notesPlaying == [] && history == [] && currentBarIndex == 0
    {
      var s := new SocketServer();
      var machine := new StateMachine();
      var g := new NoteGenerator();
      var sq := DrumSequencer();
      server := s;
      ai := machine;
      sequencer := sq;
      generator := g;
      notesPlaying := [];
      currentBarIndex := 0;
      history := [];
      this.rand := rand;
      this.shuffle := shuffle;
    }

    /** MakeNoise: sound every note, summing the samples, then drop the
        notes that are no longer active; the cutoff follows the mood.  The
        filter itself and the master volume are not modelled. */
    method MakeNoise(wave: Waveform, time: real) returns (mixedOutput: real, cutoff: real)
      requires Valid() && SoundsDefined(notesPlaying, time)
      modifies this
      ensures Valid()
      ensures mixedOutput == Mix(old(notesPlaying), wave, time)
      ensures notesPlaying == Filter(Played(old(notesPlaying), wave, time), IsActive)
      ensures forall n :: n in notesPlaying ==> n.isActive
      ensures cutoff == Cutoff(server.mood)
      ensures currentBarIndex == old(currentBarIndex) && history == old(history)
    {
      var notes;
      mixedOutput, notes := SoundNotes(notesPlaying, wave, time);
      PlayedKeepsUnique(notesPlaying, wave, time);
      FilterKeepsUnique(notes, IsActive);
      FilterMembers(notes, IsActive);
      notesPlaying := SafeRemove(notes, IsActive);
      cutoff := MapValueReverse(server.mood as real, 90.0, 10.0, 3.0, 0.0);
    }

    /** One key of the poll: key k plays scale position k - 1. */
    method HandleKey(k: int, pressed: bool, timeNow: real)
      requires Valid()
      modifies this
      ensures Valid()
      ensures notesPlaying == KeyStep(old(notesPlaying), k - 1, pressed, timeNow)
      ensures currentBarIndex == old(currentBarIndex) && history == old(history)
    {
      KeyStepKeepsUnique(notesPlaying, k - 1, pressed, timeNow);
      var noteFound := FindTestNote(notesPlaying, k - 1);
      match noteFound {
        case None =>
          if pressed {
            notesPlaying := notesPlaying + [Note(k - 1, timeNow, 0.0, true, Some(TestInstrument))];
          }
        case Some(i) =>
          var note := notesPlaying[i];
          if pressed {
            if note.offTime > note.onTime {
              notesPlaying := notesPlaying[i := note.(onTime := timeNow, isActive := true)];
            }
          } else {
            if note.offTime < note.onTime {
              notesPlaying := notesPlaying[i := note.(offTime := timeNow)];
            }
          }
      }
    }

    /** The keyboard poll of one main-loop pass, keys 0 to 16 in order. */
    method PollKeyboard(pressed: seq<bool>, timeNow: real)
      requires Valid() && |pressed| == KeyCount
      modifies this
      ensures Valid()
      ensures notesPlaying == PollKeys(old(notesPlaying), pressed, KeyCount, timeNow)
      ensures currentBarIndex == old(currentBarIndex) && history == old(history)
    {
      for k := 0 to KeyCount
        invariant Valid()
        invariant notesPlaying == PollKeys(old(notesPlaying), pressed, k, timeNow)
        invariant currentBarIndex == old(currentBarIndex) && history == old(history)
      {
        HandleKey(k, pressed[k], timeNow);
      }
    }
    /** The middle of RefreshPhrase: the state machine ticks on the mood
        and the measure, and the generator composes a phrase of the hit
        count it chose, starting from the note it chose.  `notes` and
        `beats` are the notes and the beat bar GetNewPhrase merged. */
    method Compose() returns (playerBar: string, ghost notes: string, ghost beats: string)
      requires ai.Valid() && generator.Valid() && 0 <= currentBarIndex < 12
      modifies ai, ai.input, ai.output, generator
      ensures ai.Valid() && generator.Valid()
      ensures var r := TickSpec(old(ai.currentState).value, old(ai.output.change), old(ai.output.firstNote),
                                server.mood, currentBarIndex);
              ai.currentState == Some(r.state) && ai.output.change == r.change &&
              ai.output.firstNote == r.firstNote && ai.output.numberOfNotes == r.numberOfNotes
      ensures 2.0 <= ai.output.numberOfNotes <= 10.8
      ensures ComposedFor(playerBar, notes, beats, ai.output.numberOfNotes, ai.output.firstNote, rand, |history|)
      ensures |playerBar| == BarLength
      ensures forall i :: 0 <= i < |playerBar| ==> IsPhraseChar(playerBar[i])
    {
      TickOutputs(ai.currentState.value, ai.output.change, ai.output.firstNote, server.mood, currentBarIndex);
      ai.Tick(server.mood, currentBarIndex);
      var count := NoteCount(ai.output.numberOfNotes);
      var rands := Stream(rand, |history|, count - 1);
      var draws := Stream(shuffle, |history|, |generator.noteTypes|);
      playerBar, notes, beats := generator.GetNewPhrase(count, ai.output.firstNote, rands, draws);
      PhraseChars(playerBar);
    }

    /** RefreshPhrase, the sequencer's end-of-bar callback: silence every
        chord and user voice, let the state machine tick on the current
        mood and measure, compose the player's phrase for the hit count it
        chose, program the voices of the chosen change, record the bar in
        the history and move to the next measure of the progression.
        `playerBar` is the phrase GetNewPhrase returned. */
    method RefreshPhrase() returns (playerBar: string, ghost notes: string, ghost beats: string)
      requires Valid()
      modifies this, sequencer, ai, ai.input, ai.output, generator
      ensures Valid()
      ensures var r := TickSpec(old(ai.currentState).value, old(ai.output.change), old(ai.output.firstNote),
                                server.mood, old(currentBarIndex));
              ai.currentState == Some(r.state) && ai.output.change == r.change &&
              ai.output.firstNote == r.firstNote && ai.output.numberOfNotes == r.numberOfNotes
      ensures 2.0 <= ai.output.numberOfNotes <= 10.8
      ensures ComposedFor(playerBar, notes, beats, ai.output.numberOfNotes, ai.output.firstNote, rand, |old(history)|)
      ensures |playerBar| == BarLength
      ensures forall i :: 0 <= i < |playerBar| ==> IsPhraseChar(playerBar[i])
      ensures sequencer.channels ==
                Reprogrammed(old(sequencer.channels), ai.output.change, ChordBar(old(currentBarIndex)), playerBar)
      ensures history == old(history) + [EvaluationMetrics(server.mood, ai.output.change)]
      ensures currentBarIndex == NextMeasure(old(currentBarIndex))
      ensures notesPlaying == old(notesPlaying)
      ensures sequencer.beatTime == old(sequencer.beatTime) && sequencer.accumulate == old(sequencer.accumulate)
      ensures sequencer.currentBeat == old(sequencer.currentBeat) && sequencer.notes == old(sequencer.notes)
    {
      playerBar, notes, beats := Reprogram();
      Record(ai.output.change);
    }

    /** RefreshPhrase up to the history: silence the chord and user voices,
        compose, and program the voices of the change the machine chose. */
    method Reprogram() returns (playerBar: string, ghost notes: string, ghost beats: string)
      requires Valid()
      modifies sequencer, ai, ai.input, ai.output, generator
      ensures Valid()
      ensures var r := TickSpec(old(ai.currentState).value, old(ai.output.change), old(ai.output.firstNote),
                                server.mood, currentBarIndex);
              ai.currentState == Some(r.state) && ai.output.change == r.change &&
              ai.output.firstNote == r.firstNote && ai.output.numberOfNotes == r.numberOfNotes
      ensures 2.0 <= ai.output.numberOfNotes <= 10.8
      ensures ComposedFor(playerBar, notes, beats, ai.output.numberOfNotes, ai.output.firstNote, rand, |history|)
      ensures |playerBar| == BarLength
      ensures forall i :: 0 <= i < |playerBar| ==> IsPhraseChar(playerBar[i])
      ensures sequencer.channels ==
                Reprogrammed(old(sequencer.channels), ai.output.change, ChordBar(currentBarIndex), playerBar)
      ensures sequencer.beatTime == old(sequencer.beatTime) && sequencer.accumulate == old(sequencer.accumulate)
      ensures sequencer.currentBeat == old(sequencer.currentBeat) && sequencer.notes == old(sequencer.notes)
    {
      ghost var before := sequencer.channels;
      SilenceChordVoices(sequencer);
      var currentCordBar := ChordBar(currentBarIndex);
      playerBar, notes, beats := Compose();
      PlayVoices(sequencer, ai.output.change, currentCordBar, playerBar);
      UpsertAllAppend(before, SilenceEdits, VoiceEdits(ai.output.change, currentCordBar, playerBar));
      ReprogrammedKeepsShape(before, ai.output.change, currentCordBar, playerBar);
    }

    /** The end of RefreshPhrase: the bar's mood and change join the
        history and the progression moves to its next measure. */
    method Record(change: ChordChange)
      requires Valid()
      modifies this
      ensures Valid()
      ensures history == old(history) + [EvaluationMetrics(server.mood, change)]
      ensures currentBarIndex == NextMeasure(old(currentBarIndex))
      ensures notesPlaying == old(notesPlaying)
    {
      history := history + [EvaluationMetrics(server.mood, change)];
      currentBarIndex := NextMeasure(currentBarIndex);
    }

    /** RefreshPhrase as the sequencer's callback sees it: the returned
        bar is dropped, one bar is recorded and the step state is kept. */
    method EndBar() returns (ghost change: ChordChange, ghost playerBar: string)
      requires Valid()
      modifies this, sequencer, ai, ai.input, ai.output, generator
      ensures Valid()
      ensures change == ai.output.change && |playerBar| == BarLength
      ensures sequencer.channels ==
                Reprogrammed(old(sequencer.channels), change, ChordBar(old(currentBarIndex)), playerBar)
      ensures history == old(history) + [EvaluationMetrics(server.mood, change)]
      ensures |history| == |old(history)| + 1 && currentBarIndex == NextMeasure(old(currentBarIndex))
      ensures notesPlaying == old(notesPlaying)
      ensures sequencer.beatTime == old(sequencer.beatTime) && sequencer.accumulate == old(sequencer.accumulate)
      ensures sequencer.currentBeat == old(sequencer.currentBeat) && sequencer.notes == old(sequencer.notes)
    {
      var bar, _, _ := RefreshPhrase();
      change, playerBar := ai.output.change, bar;
    }

    /** One pass of Update's loop, as far as Progress goes: the sequencer's
        step, and RefreshPhrase when the step wrapped to 0.  The ghost
        parameters are the loop's Progress before the pass; the results are
        the bars and tables after it, and the change and phrase
        RefreshPhrase chose if it ran. */
    method StepBar(currentTime: real, ghost start: real, ghost beat0: nat, ghost steps: nat, ghost bars: nat,
                   ghost tables: seq<seq<Channel>>)
      returns (wrapped: bool, ghost bars': nat, ghost tables': seq<seq<Channel>>, ghost change: ChordChange,
               ghost phrase: string)
      requires Valid() && sequencer.accumulate >= sequencer.beatTime
      requires Progress(start, sequencer.beatTime, beat0, steps, bars, tables, sequencer.accumulate,
                        sequencer.currentBeat, sequencer.channels, sequencer.notes, currentTime)
      modifies this, sequencer, ai, ai.input, ai.output, generator
      ensures Valid()
      ensures Progress(start, sequencer.beatTime, beat0, steps + 1, bars', tables', sequencer.accumulate,
                       sequencer.currentBeat, sequencer.channels, sequencer.notes, currentTime)
      ensures bars' == (if wrapped then bars + 1 else bars) && |tables'| > 0 && tables'[0] == tables[0]
      ensures tables' == tables + if wrapped then [sequencer.channels] else []
      ensures wrapped ==> change == ai.output.change &&
                          sequencer.channels ==
                            Reprogrammed(old(sequencer.channels), change, ChordBar(old(currentBarIndex)), phrase) &&
                          history == old(history) + [EvaluationMetrics(server.mood, change)]
      ensures sequencer.notes ==
                old(sequencer.notes) + StageBeat(old(sequencer.channels), old(sequencer.currentBeat), currentTime)
      ensures sequencer.beatTime == old(sequencer.beatTime)
      ensures sequencer.accumulate == old(sequencer.accumulate) - sequencer.beatTime
      ensures sequencer.currentBeat == if wrapped then 0 else old(sequencer.currentBeat) + 1
      ensures wrapped <==> old(sequencer.currentBeat) == BarLength - 1
      ensures !wrapped ==> sequencer.channels == old(sequencer.channels) && history == old(history) &&
                           currentBarIndex == old(currentBarIndex)
      ensures wrapped ==> |history| == |old(history)| + 1 && currentBarIndex == NextMeasure(old(currentBarIndex))
      ensures notesPlaying == old(notesPlaying)
    {
      ghost var due, position, table, staged := sequencer.accumulate, sequencer.currentBeat, sequencer.channels,
                                               sequencer.notes;
      wrapped := sequencer.Step(currentTime);
      change, phrase := ai.output.change, "";
      if wrapped {
        change, phrase := EndBar();
      }
      bars', tables' := ProgressStep(start, sequencer.beatTime, beat0, steps, bars, tables, due, position, table, staged,
                                     currentTime, wrapped, sequencer.accumulate, sequencer.currentBeat,
                                     sequencer.channels, sequencer.notes);
    }

    /** One pass of Update's loop: StepBar, keeping both Progress and
        Refreshes.  The ghost parameters are the loop's state before the
        pass; the results are the bars, tables, changes and phrases after
        it. */
    method Advance(currentTime: real, ghost start: real, ghost beat0: nat, ghost steps: nat, ghost bars: nat,
                   ghost tables: seq<seq<Channel>>, ghost bar0: int, ghost history0: seq<EvaluationMetrics>,
                   ghost changes: seq<ChordChange>, ghost phrases: seq<string>)
      returns (ghost bars': nat, ghost tables': seq<seq<Channel>>, ghost changes': seq<ChordChange>,
               ghost phrases': seq<string>)
      requires Valid() && sequencer.accumulate >= sequencer.beatTime
      requires Progress(start, sequencer.beatTime, beat0, steps, bars, tables, sequencer.accumulate,
                        sequencer.currentBeat, sequencer.channels, sequencer.notes, currentTime)
      requires Refreshes(bar0, history0, server.mood, tables, changes, phrases, history, currentBarIndex)
      modifies this, sequencer, ai, ai.input, ai.output, generator
      ensures Valid() && sequencer.beatTime == old(sequencer.beatTime)
      ensures Progress(start, sequencer.beatTime, beat0, steps + 1, bars', tables', sequencer.accumulate,
                       sequencer.currentBeat, sequencer.channels, sequencer.notes, currentTime)
      ensures Refreshes(bar0, history0, server.mood, tables', changes', phrases', history, currentBarIndex)
      ensures |tables'| > 0 && tables'[0] == tables[0]
      ensures notesPlaying == old(notesPlaying)
    {
      ghost var entries, measure := history, currentBarIndex;
      var wrapped;
      ghost var change, phrase;
      wrapped, bars', tables', change, phrase := StepBar(currentTime, start, beat0, steps, bars, tables);
      changes', phrases' := RefreshesStep(bar0, history0, server.mood, tables, changes, phrases, entries, measure,
                                          wrapped, change, phrase, tables', history, currentBarIndex);
    }

    /** Sequencer::Update with RefreshPhrase as its callback: clear the
        staged notes, add the elapsed time, and while a whole step of time
        is left stage the step's notes, consume the step and advance it,
        refreshing the bar each time the step wraps to 0.  The count is the
        number of staged notes.  `steps` is the number of steps taken,
        `bars` the number of bars that ended, and tables[b] the channel
        table in force during the b-th bar of the update. */
    method Update(deltaTime: real, currentTime: real)
      returns (count: int, ghost steps: nat, ghost bars: nat, ghost tables: seq<seq<Channel>>,
               ghost changes: seq<ChordChange>, ghost phrases: seq<string>)
      requires Valid()
      modifies this, sequencer, ai, ai.input, ai.output, generator
      ensures Valid()
      ensures count == |sequencer.notes| && StagedShape(sequencer.notes, currentTime)
      ensures sequencer.beatTime == old(sequencer.beatTime)
      ensures steps == StepsDue(old(sequencer.accumulate) + deltaTime, sequencer.beatTime)
      ensures sequencer.accumulate == Leftover(old(sequencer.accumulate) + deltaTime, sequencer.beatTime)
      ensures old(sequencer.currentBeat) + steps == bars * BarLength + sequencer.currentBeat
      ensures |history| == |old(history)| + bars
      ensures currentBarIndex == (old(currentBarIndex) + bars) % 12
      ensures |tables| == bars + 1 && tables[0] == old(sequencer.channels) && tables[bars] == sequencer.channels
      ensures ShapedTables(tables)
      ensures old(sequencer.currentBeat) + steps <= BarLength * |tables|
      ensures sequencer.notes == StagedOver(tables, old(sequencer.currentBeat), steps, currentTime)
      ensures |changes| == bars && Chained(Reprogrammed, old(currentBarIndex), tables, changes, phrases)
      ensures history == old(history) + Evaluations(server.mood, changes)
      ensures notesPlaying == old(notesPlaying)
    {
      sequencer.BeginUpdate(deltaTime);
      steps, bars, tables, changes, phrases := CatchUp(currentTime);
      RefreshesBars(old(currentBarIndex), old(history), server.mood, tables, changes, phrases, history, currentBarIndex);
      StagedOverShape(tables, old(sequencer.currentBeat), steps, currentTime);
      count := |sequencer.notes|;
    }

    /** Update's loop: while a whole step of time is left, take a step,
        refreshing the bar each time the step wraps to 0, starting with no
        staged notes.  Progress relates the steps, bars and tables to the
        time the loop started with. */
    method CatchUp(currentTime: real)
      returns (ghost steps: nat, ghost bars: nat, ghost tables: seq<seq<Channel>>, ghost changes: seq<ChordChange>,
               ghost phrases: seq<string>)
      requires Valid() && sequencer.notes == []
      modifies this, sequencer, ai, ai.input, ai.output, generator
      ensures Valid() && sequencer.beatTime == old(sequencer.beatTime)
      ensures sequencer.accumulate < sequencer.beatTime
      ensures Progress(old(sequencer.accumulate), sequencer.beatTime, old(sequencer.currentBeat), steps, bars, tables,
                       sequencer.accumulate, sequencer.currentBeat, sequencer.channels, sequencer.notes, currentTime)
      ensures tables[0] == old(sequencer.channels)
      ensures Refreshes(old(currentBarIndex), old(history), server.mood, tables, changes, phrases, history,
                        currentBarIndex)
      ensures notesPlaying == old(notesPlaying)
    {
      ghost var start := sequencer.accumulate;
      ghost var beat0 := sequencer.currentBeat;
      ghost var bar0 := currentBarIndex;
      ghost var bt := sequencer.beatTime;
      ghost var history0 := history;
      steps, bars := 0, 0;
      tables, changes, phrases := [sequencer.channels], [], [];
      while sequencer.accumulate >= sequencer.beatTime
        invariant Valid() && sequencer.beatTime == bt
        invariant Progress(start, sequencer.beatTime, beat0, steps, bars, tables, sequencer.accumulate,
                           sequencer.currentBeat,
                           sequencer.channels, sequencer.notes, currentTime)
        invariant tables[0] == old(sequencer.channels)
        invariant Refreshes(bar0, history0, server.mood, tables, changes, phrases, history, currentBarIndex)
        invariant notesPlaying == old(notesPlaying)
        decreases StepsDue(sequencer.accumulate, bt)
      {
        bars, tables, changes, phrases :=
          Advance(currentTime, start, beat0, steps, bars, tables, bar0, history0, changes, phrases);
        steps := steps + 1;
      }
    }

    /** One pass of main's loop: run the sequencer, append the notes it
        staged to the notes playing, then poll the seventeen keys.  The
        ghost results are those of the sequencer's update. */
    method RunFrame(deltaTime: real, timeNow: real, pressed: seq<bool>)
      returns (ghost steps: nat, ghost bars: nat, ghost tables: seq<seq<Channel>>, ghost changes: seq<ChordChange>,
               ghost phrases: seq<string>)
      requires Valid() && |pressed| == KeyCount
      modifies this, sequencer, ai, ai.input, ai.output, generator
      ensures Valid()
      ensures sequencer.beatTime == old(sequencer.beatTime)
      ensures steps == StepsDue(old(sequencer.accumulate) + deltaTime, sequencer.beatTime)
      ensures sequencer.accumulate == Leftover(old(sequencer.accumulate) + deltaTime, sequencer.beatTime)
      ensures old(sequencer.currentBeat) + steps == bars * BarLength + sequencer.currentBeat
      ensures |history| == |old(history)| + bars
      ensures currentBarIndex == (old(currentBarIndex) + bars) % 12
      ensures |tables| == bars + 1 && tables[0] == old(sequencer.channels) && tables[bars] == sequencer.channels
      ensures ShapedTables(tables)
      ensures old(sequencer.currentBeat) + steps <= BarLength * |tables|
      ensures sequencer.notes == StagedOver(tables, old(sequencer.currentBeat), steps, timeNow)
      ensures |changes| == bars && Chained(Reprogrammed, old(currentBarIndex), tables, changes, phrases)
      ensures history == old(history) + Evaluations(server.mood, changes)
      ensures notesPlaying == PollKeys(old(notesPlaying) + sequencer.notes, pressed, KeyCount, timeNow)
    {
      var count;
      count, steps, bars, tables, changes, phrases := Update(deltaTime, timeNow);
      StagedAreNotTest(sequencer.notes, timeNow);
      AppendOthersKeepsUnique(notesPlaying, sequencer.notes);
      if count > 0 {
        notesPlaying := notesPlaying + sequencer.notes;
      } else {
        assert notesPlaying + sequencer.notes == notesPlaying;
      }
      PollKeyboard(pressed, timeNow);
    }
  }
}
