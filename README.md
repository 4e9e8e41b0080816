# Muve synthesizer core, modelled in Dafny

Muve is a small real-time synthesizer. A sequencer plays a 16-step drum
and chord pattern at 120 beats per minute. The player adds notes from the
computer keyboard. A socket client streams a "mood" value, which steers a
five-state machine. At the end of every bar the machine chooses:

- how many notes the player's voice plays in the next bar;
- which note that phrase starts on;
- whether the backing chords are played normally, inverted or diminished.

A phrase generator then packs that many hits into a 16-step bar and fills
them with notes grown by A minor rules. Every bar's mood and chord change
go into a history, which is summarised when the session ends.

The model has one Dafny module per part of the program:

| module | file | what it models |
|---|---|---|
| `Wrappers` | wrappers.dfy | `Option`, for null pointers, missing keys and failed searches |
| `Pitch` | pitch.dfy | the letter/semitone maps and the negative-harmony transform |
| `Envelope` | envelope.dfy | the ADSR amplitude envelope |
| `Instruments` | instruments.dfy | the fifteen instruments' settings and finish rules, and `Note::Sound` |
| `Sequencing` | sequencer.dfy | the `Sequencer` struct: step clock, note staging, `PlayBar` |
| `MoodMachine` | mood_machine.dfy | the `AI` state machine, its states and their outputs |
| `Phrase` | phrase.dfy | the `NGen` phrase generator |
| `Session` | session.dfy | the end-of-session evaluation |
| `Server` | server.dfy | the framing of mood messages and the mood update |
| `App` | application.dfy | the globals and passes of the application |

Modelling choices:

- **State-changing code is imperative Dafny.**
  - The sequencer, state machine, note generator, socket server and the
    application's globals are classes.
  - Their methods change fields under `modifies` clauses.
  - Each loop that updates variables is a `while` or `for` loop, proved
    against a specification function.
- **Pure code is functions.** This covers the maps, the envelope, the
  instruments' `Sound`, `ProcessMessage`, `GenareateNote` and `LSystem`.
- **Times and amplitudes are mathematical reals.**
- **The instrument is a value.**
  - An instrument is a datatype holding its volume, envelope and finish
    rule.
  - Its oscillator mix is a function parameter (`Waveform`).
  - The C++ program has one global object per instrument struct, so an
    instrument name stands for that object's address.
- **Random sources are inputs.**
  - `rand()` values are a function from (bar, draw) to a natural number.
  - The shuffle engine's draws are inputs in the same way.
- **The end-of-bar callback is wired explicitly.**
  - The sequencer's callback is a function pointer to `RefreshPhrase`.
    Dafny has no effectful function values.
  - So `Sequencer` offers the body of its update loop as `Step`, which
    returns whether the bar wrapped.
  - `App.Engine.Update` runs that loop (in `CatchUp`) and calls `RefreshPhrase` on each
    wrap.
- **`std::stoi` is modelled as parsing.**
  - It reads optional white space, an optional sign and decimal digits.
    Failure is `None`.
  - `BuildMessage` reports a failure as `ok == false`, keeping the mood
    updates made before it. In the program the exception is not caught
    and ends the process.

Places where the model follows the code rather than its comments or names:

- `SafeRemove` (Aplication.cpp:64-74) starts its iterator from the global
  `NotesPlaying`, not from its `notes` parameter. Its only call passes
  `NotesPlaying`, so the model filters the list it is given.
- `EvalauteSession`'s switch has no `break` after the `INVERTED` case
  (SessionEvaluator.h:41-48).
  - An inverted bar is therefore also counted as diminished.
  - The model counts this way and proves "diminished ≥ inversions".
- `sensorAverage` is an `unsigned int`.
  - A negative mood wraps the sum around modulo 2^32.
  - `Session.NegativeMoodReadsVeryHigh` shows a single bar at -5 being
    reported as "very high movement".
- Each mood state's note-selection loop resets `FirstNote` to `'B'` after
  every chord note that does not match (StateMachine.h:119-130).
  - So the chosen note can repeat the previous one.
  - `MoodMachine.FirstNoteCanRepeat` gives an instance.
- The two-level rise or fall does not always end with the chord change
  the states' enter and exit rules suggest.
  - `MoodMachine.RiseFromMidLowCanStayDiminished` gives an instance.
  - `MoodMachine.TwoLevelJumpChange` proves the case that starts from
    `NORMAL`.

## Model

| member | source | states |
|---|---|---|
| Pitch.NoteToScale | SynthUtils.h:24-27 | the semitone of a note letter is its position in `AaBCcDdEFfGg`, a number in 0..11 |
| Pitch.ScaleToNote | SynthUtils.h:29-32 | the letter of a semitone 0..11 is the letter at that position, and it is a key of `NoteToScaleMap` |
| Pitch.ScaleMapsInverse | SynthUtils.h:24-32 | the two maps have exactly the twelve letters and 0..11 as keys, and each undoes the other in both directions |
| Pitch.CppRem12 | SynthUtils.h:49 | C++ `% 12`: the result lies strictly between -12 and 12, has the dividend's sign and differs from it by a multiple of 12 |
| Pitch.NegativeHarmonyTransformation | SynthUtils.h:47-51 | for every int the result is in 0..11 and equals the Euclidean (1 - x) mod 12, negative inputs included |
| Pitch.NegativeHarmonyInvolution | SynthUtils.h:47-51 | applying the transform twice gives x mod 12, so it is an involution on 0..11 |
| Pitch.NegativeHarmonyOfPitchClass | SynthUtils.h:47-51 | the transform depends only on the pitch class of its input |
| Envelope.Amplitude | SynthUtils.h:107-147 | the amplitude is either exactly 0 or above the 0.001 threshold |
| Envelope.HeldPhasesMeet | SynthUtils.h:116-125 | the attack ends at the start amplitude and the decay at the sustain level, so the held phases join without a jump |
| Envelope.HeldAmplitudeBounds | SynthUtils.h:112-126 | with non-negative levels, a held note's level lies between 0 and the larger of start and sustain amplitude |
| Envelope.HeldIgnoresTimeOff | SynthUtils.h:112-126 | while the note is held (timeOn > timeOff), the amplitude does not depend on timeOff |
| Envelope.SustainPhase | SynthUtils.h:124-144 | held past attack plus decay, the amplitude is the sustain level, or 0 when that is at or below the threshold |
| Envelope.ReleaseStartsAtHeldLevel | SynthUtils.h:127-141 | at the moment of release the amplitude equals the held amplitude at lifetime timeOff - timeOn |
| Envelope.ReleaseEnds | SynthUtils.h:127-144 | once releaseTime has passed since timeOff, the amplitude is 0 |
| Envelope.AmplitudeBounds | SynthUtils.h:107-147 | at or after the last key event, the amplitude lies between 0 and the larger of start and sustain amplitude |
| Envelope.CoincidentOnOffIsSilent | SynthUtils.h:127-144 | a note released at the instant it started is silent |
| Envelope.AmplitudeShiftInvariant | SynthUtils.h:107-147 | moving time, timeOn and timeOff by the same amount leaves the amplitude unchanged |
| Instruments.Config | SynthUtils.h:338-893 | each instrument has positive attack and decay, a start amplitude of 1 and non-negative levels; melodic instruments have a positive release; percussive ones have MaxLifeTime = attack + decay, no sustain and no release |
| Instruments.Sound | SynthUtils.h:352-360 | a finished note yields 0; an envelope-driven instrument finishes exactly when the amplitude is 0 and the note is released; a lifetime instrument finishes exactly when time - timeOn ≥ MaxLifeTime |
| Instruments.HeldNoteNeverFinishes | SynthUtils.h:355-360 | while the key is held, an envelope-driven note never finishes, even when its attack is still silent |
| Instruments.ReleasedNoteFinishes | SynthUtils.h:355-360 | a released melodic note is finished, and silent, once its release time has passed |
| Instruments.PercussiveLifetime | SynthUtils.h:501-514 | a percussive note finishes exactly when it has lived attack plus decay seconds, whatever the key does |
| Instruments.PercussiveInstruments | SynthUtils.h:487-501 | the drums and the chord and user instruments are percussive; Test, Bell, Bell8 and Harmonica are not |
| Instruments.NoteSound | SynthUtils.h:184-195 | only IsActive changes, to "not finished"; a null channel yields 0 and leaves the note active; an inactive note yields 0 |
| Sequencing.HitPitch | SynthUtils.h:240 | a note letter hits at its NoteToScaleMap semitone; any other pattern character hits at 0 |
| Sequencing.StageBeatSound | SynthUtils.h:236-243 | a step stages at most one note per channel; each one starts now, has off time 0, is inactive, and is the note of some channel with a hit at that step |
| Sequencing.StageBeatComplete | SynthUtils.h:236-243 | every channel with a hit at the step gets its note staged |
| Sequencing.StageBeatAllRests | SynthUtils.h:238 | a step at which every channel rests stages nothing |
| Sequencing.StageStep | SynthUtils.h:236-244 | the channel loop stages exactly the notes of the channels with a hit, in channel order |
| Sequencing.FindChannel | SynthUtils.h:259-260 | finds the first channel bound to the instrument, and finds none exactly when no channel is |
| Sequencing.UpsertShape | SynthUtils.h:257-271 | PlayBar appends a channel exactly when the instrument has none; otherwise the table keeps its length; channels of other instruments keep their place and pattern |
| Sequencing.UpsertBarOf | SynthUtils.h:257-271 | after PlayBar the instrument plays the new bar, and every other instrument plays what it played before |
| Sequencing.UpsertKeepsUnique | SynthUtils.h:257-271 | PlayBar keeps every instrument on at most one channel |
| Sequencing.NextBeat | SynthUtils.h:247-248 | stepping modulo the bar length wraps to 0 exactly at the last step |
| Sequencing.Sequencer.constructor | SynthUtils.h:220-227 | a step lasts (60 / tempo) / subBeats seconds, a bar has beats × subBeats steps, the clock starts at step 0 with nothing accumulated |
| Sequencing.Sequencer.BeginUpdate | SynthUtils.h:231-233 | the staged notes are cleared and the elapsed time is added to the accumulator |
| Sequencing.Sequencer.Step | SynthUtils.h:234-251 | one step stages the step's notes after the earlier ones, consumes one step of time and advances the step modulo the bar; the bar ends exactly when the step wraps to 0, which is exactly after the last step |
| Sequencing.Sequencer.PlayBar | SynthUtils.h:257-271 | the channel table becomes the upsert of the instrument's bar; the clock and staged notes are untouched |
| MoodMachine.Value | StateMachine.h:17-22 | the chord change's integer lies in -1..1 and is 0 exactly for NORMAL |
| MoodMachine.MeasureChord | StateMachine.cpp:5-17 | every measure of the progression has a three-note chord |
| MoodMachine.TransitionTableLookup | StateMachine.cpp:48-59 | the constructor's table has every state, mapped to its transitions in insertion order |
| MoodMachine.TransitionsAdjacent | StateMachine.cpp:34-59 | every transition goes one level up when the mood is strictly above the state's upper threshold, or one level down when strictly below its lower one |
| MoodMachine.FirstEnabledIsFirst | StateMachine.cpp:119-129 | the search finds nothing exactly when no guard holds, and otherwise the target of the earliest transition whose guard holds |
| MoodMachine.NextMovesTowardMood | StateMachine.cpp:34-59 | a state has no enabled transition exactly when the mood is in its band, thresholds included; otherwise it moves one level toward the mood |
| MoodMachine.BoundaryMoodsSticky | StateMachine.cpp:34-46 | a mood of exactly 20, 40, 60 or 80 moves neither of the two states whose bands meet there |
| MoodMachine.Settle | StateMachine.cpp:78-83 | the transition loop takes at most its budget of transitions |
| MoodMachine.SettleMonotone | StateMachine.cpp:78-83 | the loop moves the state one level per transition, always toward the mood; if it stops early, the final state's band holds the mood |
| MoodMachine.TwoLevelJumpChange | StateMachine.cpp:78-89 | two transitions in one tick from NORMAL end INVERTED on a rise and DIMINISHED on a fall |
| MoodMachine.RiseFromMidLowCanStayDiminished | StateMachine.h:287-300 | from MoodMidLow with a DIMINISHED change, a two-level rise to MoodMidHigh keeps DIMINISHED |
| MoodMachine.FirstNoteFromChordAndMood | StateMachine.h:119-130 | the chosen first note is 'B', or a note both of the chord and of the state's mood notes |
| MoodMachine.FirstNoteCanRepeat | StateMachine.h:119-130 | because of the reset to 'B', a high mood on the D chord picks F again after F |
| MoodMachine.NumberOfNotesFor | StateMachine.h:114 | the state multiplier times the measure multiplier lies between 2 and 10.8 |
| MoodMachine.TickMoves | StateMachine.cpp:78-89 | a tick takes at most two transitions, moves at most two levels, and the chord change is NORMAL unless exactly two transitions were taken |
| MoodMachine.TickOutputs | StateMachine.h:112-130 | after a tick the first note is 'B' or a chord note the new state likes, so a natural note A..G, and the note count lies in 2..10.8 |
| MoodMachine.AIInput.constructor | StateMachine.cpp:21 | the input starts at mood 0, measure 0 |
| MoodMachine.AIOutput.constructor | StateMachine.cpp:23-26 | the output starts with first note ' ', one note and NORMAL |
| MoodMachine.OnEnter | StateMachine.h:133-343 | entering a state changes only the chord change, by that state's rule: High and Low set it, MidHigh and MidLow set it only from NORMAL, Mid leaves it |
| MoodMachine.OnExit | StateMachine.h:139-349 | leaving a state changes only the chord change, by that state's rule |
| MoodMachine.StateTick | StateMachine.h:109-131 | a state's tick sets the note count for the measure and picks the first note from the chord and its mood notes; the chord change is untouched |
| MoodMachine.PickFirstNote | StateMachine.h:119-130 | the nested loops with the early return pick the note ChooseFirstNote names |
| MoodMachine.StateMachine.constructor | StateMachine.cpp:19-62 | the machine has the full transition table and is in MoodLow; the output is DIMINISHED (set by MoodLow's OnEnter), ' ' and 1 |
| MoodMachine.StateMachine.AddTransitions | StateMachine.cpp:48-59 | the eight AddTransition calls build exactly the transition table |
| MoodMachine.StateMachine.AddUpperTransitions | StateMachine.cpp:48-51 | the first three calls give MoodHigh and MoodMidHigh their lists |
| MoodMachine.StateMachine.AddLowerTransitions | StateMachine.cpp:53-59 | the last five calls complete the table |
| MoodMachine.StateMachine.AddTransition | StateMachine.cpp:110-117 | the transition is appended to the source state's list, which is created empty if missing; nothing else changes |
| MoodMachine.StateMachine.SetState | StateMachine.cpp:95-108 | no effect for the current state; otherwise the old state's exit and the new state's enter rules apply in that order and the new state's transitions become current |
| MoodMachine.StateMachine.GetTransition | StateMachine.cpp:119-129 | returns the target of the first current transition whose guard holds for the stored mood, or none |
| MoodMachine.StateMachine.Tick | StateMachine.cpp:70-93 | stores the inputs and reaches exactly the state, chord change, first note and note count that TickSpec names |
| Phrase.NextNoteChoices | NoteGenarator.h:132-146 | the next note is the last one, its resolution (only for an active note) or its third; from a natural note it is natural |
| Phrase.NextNoteBands | NoteGenarator.h:136-143 | value 0 repeats; 1..5 resolve an active note to a different note; the other cases move a third, to a different note |
| Phrase.GenerateNotes | NoteGenarator.h:108-130 | numberOfNotes notes starting with the axiom, each drawn from the previous one by the rules; natural notes only, when the axiom is natural |
| Phrase.Generation | NoteGenarator.h:148-158 | a generation is one note longer than the string it grows from |
| Phrase.NextGeneration | NoteGenarator.h:148-158 | the loop builds exactly that generation |
| Phrase.LSystemLength | NoteGenarator.h:160-166 | the L-system stops with exactly numberOfNotes notes when the axiom is shorter, otherwise returns the axiom |
| Phrase.LSystemNotes | NoteGenarator.h:160-166 | the L-system keeps the axiom's first note, and natural notes only grow natural notes |
| Phrase.ConcatShape | NoteGenarator.h:40 | fragments laid end to end hold one hit per fragment |
| Phrase.FitsFromPicks | NoteGenarator.h:69-80 | any layout in non-decreasing list order that fills the bar exactly is one the search can reach |
| Phrase.NoteTypesAreFragments | NoteGenarator.h:102 | after any shuffle every note type is a one-hit fragment shorter than a bar |
| Phrase.EveryCountFits | NoteGenarator.h:64-104 | whatever order the shuffle leaves, every hit count from 2 to 16 can be packed into 16 steps |
| Phrase.NoSingleFragmentBar | NoteGenarator.h:40 | no single fragment fills a bar |
| Phrase.FitsBound | NoteGenarator.h:71-72 | a layout needs at least one free step per fragment |
| Phrase.MergePhrase | NoteGenarator.h:174-185 | the merge has the beat bar's length, copies every non-hit, and puts the generated notes at the hits in order |
| Phrase.MergedLetters | NoteGenarator.h:174-185 | merging a hit-and-rest bar with natural notes gives only rests and natural notes, and the rests are exactly the bar's rests |
| Phrase.SearchFromEmpty | NoteGenarator.h:99-104 | a search from the empty phrase gives a full bar with one hit per note for 2..16 notes, else the empty string |
| Phrase.OneHitBar | NoteGenarator.h:92-93 | the fixed one-note bar has 16 steps and one hit |
| Phrase.TwoHitBar | NoteGenarator.h:94-95 | the fixed two-note bar has 16 steps and two hits |
| Phrase.FullBar | NoteGenarator.h:96-97 | the fixed sixteen-note bar has 16 hits |
| Phrase.NoteGenerator.constructor | NoteGenarator.h:40 | the note types start in their declared order |
| Phrase.NoteGenerator.FindSequence | NoteGenarator.h:64-87 | success (16 steps and the requested count) happens exactly when a fitting layout exists from the given start; then the phrase is the input plus the chosen fragments in non-decreasing order; on failure the phrase and count are given back unchanged |
| Phrase.NoteGenerator.Shuffle | NoteGenarator.h:102 | the note types are a permutation of what they were |
| Phrase.NoteGenerator.GenerateBeatSequence | NoteGenarator.h:90-105 | the fixed bars for 1, 2 and 16 notes; 16 steps with exactly n hits for every n in 1..16; the empty string outside that range; only hits and rests |
| Phrase.NoteGenerator.PackBar | NoteGenarator.h:99-104 | the shuffled search gives 16 steps with n hits for 2..16 notes, else the empty string |
| Phrase.NoteGenerator.GetNewPhrase | NoteGenarator.h:168-189 | the phrase merges the generated note chain from the first note with a beat bar of one hit per note: the k-th hit carries the k-th note and every other step is copied; for 1..16 notes it has 16 steps, for more it is empty; from a natural first note its rests are exactly the bar's rests and its other steps are natural notes |
| Session.BandOf | SessionEvaluator.h:50-59 | each of the five bands exactly: very low below 20, low in 20..39, balanced in 40..59, high in 60..79, very high from 80 |
| Session.Loops | SessionEvaluator.h:29 | the divisor is at least 1 |
| Session.MajorityMeansMost | SessionEvaluator.h:88-97 | a band that beats every other is the majority, and a majority other than "very low" beats every other band |
| Session.TieReadsVeryLow | SessionEvaluator.h:88-97 | a tie at the top reads as "very low movement" |
| Session.EvaluateSession | SessionEvaluator.h:28-106 | the counts of inversions (and, by the fall-through, diminished plus inversions), of each band, the unsigned average, the percentages and the two report clauses |
| Session.BandsPartition | SessionEvaluator.h:50-59 | every bar falls in exactly one band: the band counts sum to the history length |
| Session.ChangesBounded | SessionEvaluator.h:41-48 | inversions plus diminished bars never exceed the bars |
| Session.MoodSumBounds | SessionEvaluator.h:61 | moods in 0..100 sum to at most 100 per bar |
| Session.AverageWithoutWrap | SessionEvaluator.h:61-64 | with moods in 0..100 and fewer than 2^25 bars, the unsigned average is the plain integer mean, at most 100 |
| Session.NegativeMoodReadsVeryHigh | SessionEvaluator.h:61-86 | a single bar with mood -5 wraps the unsigned sum and reads as very high movement |
| Session.EmptySession | SessionEvaluator.h:29-97 | an empty session divides by one, averages 0 and reads "very low" twice |
| Server.Stoi | SocketServer.cpp:116 | a parsed value lies in the int range; None stands for stoi's exceptions |
| Server.StoiReadsDecimal | SocketServer.cpp:116 | stoi reads back a decimal number followed by any non-digit |
| Server.ProcessMessage | SocketServer.cpp:124-134 | the step is -5, 0 or 5; it is 0 exactly on the baseline and positive exactly below it; from 5 or more away it moves toward the baseline without passing it |
| Server.StopIndex | SocketServer.cpp:105-107 | reading stops at the first separator that is not followed by '#', or at the end of the text, and at no earlier position |
| Server.Strip | SocketServer.cpp:109-110 | the text without '#' holds no '#' and no new character |
| Server.SegmentsShape | SocketServer.cpp:109-118 | every segment ends with its only separator and, in text without '#', holds no '#' |
| Server.SegmentsSnoc | SocketServer.cpp:112-118 | a separator closes the pending text into a new segment, and any other character extends the pending text |
| Server.ApplySnoc | SocketServer.cpp:114-118 | applying one more segment applies it to the mood the earlier ones left |
| Server.ApplyAfterFailure | SocketServer.cpp:116 | after a failed parse, further segments change nothing |
| Server.MoodChangeBound | SocketServer.cpp:114-118 | the mood moves by at most 5 per applied segment |
| Server.SegmentsHoldNoHash | SocketServer.cpp:109-110 | no applied segment holds a '#' |
| Server.ExampleMessage | SocketServer.cpp:101-102 | the documented four-value example message splits into the values 5, 0, 2 and 3 and takes mood 10 to 20 |
| Server.UnframedValueIgnored | SocketServer.cpp:106-107 | a value sent without its '#' ends the reading at the separator before it, so even the complete value ahead of it is not applied |
| Server.FailureKeepsMood | SocketServer.cpp:116 | once a segment fails to parse, the rest of the message does not matter |
| Server.SocketServer.constructor | SocketServer.cpp:12-16 | the mood starts at 10, with no client |
| Server.SocketServer.BuildMessage | SocketServer.cpp:103-120 | the new mood and the parse status are those of applying the message's segments, up to the stop, to the old mood |
| App.FilterMembers | Aplication.cpp:64-74 | a note survives exactly when it was there and is kept |
| App.FilterAppend | Aplication.cpp:64-74 | filtering works piecewise, so survivors keep their relative order |
| App.FilterAllKept | Aplication.cpp:64-74 | a list whose notes are all kept passes unchanged |
| App.SafeRemove | Aplication.cpp:64-74 | the erase loop leaves exactly the kept notes, in their original order |
| App.MapValueReverse | Aplication.cpp:78-84 | min1 maps to max2 + min2 and max1 maps to 0 |
| App.MapValueReverseDecreasing | Aplication.cpp:78-84 | a larger value maps strictly lower |
| App.CutoffRange | Aplication.cpp:98 | mood 10 gives cutoff 3, mood 90 gives 0, and the cutoff falls as the mood rises |
| App.Played | Aplication.cpp:91-94 | every note is replaced by its sounded self, in place |
| App.PruneKeepsMix | Aplication.cpp:91-96 | the pruned notes were silent: the mix of the survivors equals the mix of all notes |
| App.SoundNotes | Aplication.cpp:91-94 | the loop sums every note's sample and stores each note back with its new IsActive |
| App.TestNoteAt | Aplication.cpp:197-198 | finds the first Test note at the position, and none exactly when there is none |
| App.FindTestNote | Aplication.cpp:197-198 | the search loop finds that note |
| App.KeyStepAdds | Aplication.cpp:201-207 | a note is added exactly for a pressed key without a Test note, as an active note starting now with off time 0 |
| App.KeyStepUpdates | Aplication.cpp:209-223 | a press re-triggers a released note (on time now, active, off time kept); a release of a held note sets its off time; nothing else changes |
| App.KeyStepKeepsUnique | Aplication.cpp:197-223 | a key step keeps at most one Test note per scale position |
| App.PlayedKeepsUnique | Aplication.cpp:91-94 | sounding the notes keeps Test notes unique |
| App.FilterKeepsUnique | Aplication.cpp:96 | pruning keeps Test notes unique |
| App.AppendOthersKeepsUnique | Aplication.cpp:184-189 | appending non-Test notes keeps Test notes unique |
| App.PollKeysKeepsUnique | Aplication.cpp:191-227 | polling all keys keeps Test notes unique |
| App.PollKeysGrows | Aplication.cpp:191-227 | polling never removes a note and adds at most one per key |
| App.ChordBar | Aplication.cpp:106-119 | the chord bar has 16 steps: the measure's chord letter first, rests after |
| App.VoicesFor | Aplication.cpp:127-144 | each change plays through three distinct chord or user instruments |
| App.UpsertAllBarOf | Aplication.cpp:108-117 | after a list of PlayBar calls an instrument plays the bar the list gave it last, or its old bar |
| App.SilenceEditsBars | Aplication.cpp:108-117 | the first eight calls give exactly the eight chord and user instruments the rest bar |
| App.VoiceEditsBars | Aplication.cpp:127-144 | the switch gives the change's chord and bass voices the chord bar and its user voice the phrase |
| App.ReprogrammedBarOf | Aplication.cpp:106-144 | after the eleven calls the three voices play chord bar and phrase, the other five chord and user instruments rest, the others are unchanged |
| App.ReprogrammedKeepsShape | Aplication.cpp:106-144 | reprogramming keeps one channel per instrument, full-length patterns and no Test channel |
| App.DrumTable | Aplication.cpp:171-173 | the three drum calls on an empty table append one channel each, in order |
| App.DrumSequencer | Aplication.cpp:170-173 | main's sequencer: step of 0.125 s, 16 steps, the three drum channels |
| App.SilenceChordVoices | Aplication.cpp:108-117 | the eight calls change the table as the rest-bar list says |
| App.PlayVoices | Aplication.cpp:127-144 | the switch changes the table as the change's voice list says |
| App.StepsDueSpec | SynthUtils.h:233-246 | the update loop takes floor(accumulated / step) steps and leaves less than a step of time |
| App.StagedOverShape | SynthUtils.h:236-243 | every note an update stages over any number of steps started now, is inactive, has off time 0 and is not a Test note |
| App.StagedOverPrefix | SynthUtils.h:234-252 | tables of later bars do not change what earlier steps staged |
| App.StagedOverStep | SynthUtils.h:236-248 | one more step stages exactly that step's notes from the table of the bar it falls in |
| App.ProgressStep | SynthUtils.h:234-252 | one loop pass keeps Progress: one step fewer due, the same leftover, the counter advanced, a new table opened exactly on the wrap, and the step's notes staged |
| App.MeasuresOn | Aplication.cpp:148 | the measure n bars on from a measure in 0..11 is again in 0..11 |
| App.ChainedStep | SynthUtils.h:234-252 | a further bar whose table follows from the last one by the step, in the next measure, extends a chain of bar tables |
| App.ChainedBars | Aplication.cpp:148 | in a chain, the table that ends bar b is the step applied in measure (bar0 + b) mod 12 |
| App.Evaluations | Aplication.cpp:147 | one evaluation per bar, the b-th of the mood and the b-th change |
| App.RefreshesStep | SynthUtils.h:250-251 | a loop pass that wrapped and ran RefreshPhrase adds one reprogrammed table, one change, one phrase and one evaluation and moves on one measure; a pass that did not wrap adds nothing |
| App.RefreshesBars | Aplication.cpp:103-150 | after n bars: n + 1 tables, each reprogrammed from the one before in measure (bar0 + b) mod 12, one history entry per bar, and the measure (bar0 + n) mod 12 |
| App.MeasuresOnWrap | Aplication.cpp:148 | advancing the measure n times from i is (i + n) mod 12 |
| App.NoteCount | Aplication.cpp:124 | the (int) cast of a count in 2..10.8 is its floor, in 2..10 |
| App.Engine.constructor | Aplication.cpp:155-173 | mood 10, the machine in MoodLow, the drum sequencer, nothing playing, empty history, bar 0 |
| App.Engine.MakeNoise | Aplication.cpp:86-101 | the mix of all notes; the playing list becomes the sounded notes that are still active, in order; the cutoff follows the mood |
| App.Engine.HandleKey | Aplication.cpp:193-226 | one key's add, re-trigger or release of its Test note |
| App.Engine.PollKeyboard | Aplication.cpp:191-227 | the seventeen keys are handled in order |
| App.Engine.Compose | Aplication.cpp:121-125 | the machine ticks as TickSpec says; the phrase is GetNewPhrase's merge for the (int) cast of the chosen count, starting from the chosen first note and drawn with this bar's rand() values; it has 16 steps of rests and natural notes |
| App.Engine.RefreshPhrase | Aplication.cpp:103-150 | everything Compose states, including the composed phrase; the channel table is the eleven-call reprogramming; one history entry; the next measure mod 12; notes and clock unchanged |
| App.Engine.Reprogram | Aplication.cpp:106-144 | the rest bar for the eight chord and user voices, the machine's tick and the new phrase (as Compose states it), then the chosen change's voices: the channel table becomes the eleven-call reprogramming, the clock and staged notes unchanged |
| App.Engine.Record | Aplication.cpp:147-148 | one history entry of mood and change; the measure index advances modulo 12 |
| App.Engine.EndBar | SynthUtils.h:250-251 | the callback reprograms the channel table with the machine's change, this measure's chord bar and a 16-step phrase, records that change's evaluation and advances the measure, leaving notes and clock alone |
| App.Engine.StepBar | SynthUtils.h:236-252 | one loop pass stages the step's notes from the current table and advances the step; the callback runs exactly on the wrap, reprogramming the table and adding one history entry; the pass keeps Progress, opening a new bar's table on the wrap |
| App.Engine.Advance | SynthUtils.h:234-252 | one loop pass keeps both Progress and the chain of reprogrammed tables with their history entries |
| App.Engine.Update | SynthUtils.h:229-255 | the staged notes are exactly StagedOver of the tables in force during each bar, the first being the table before the call and the last the table after it; they start now and are not Test notes; steps taken = floor(time / step); leftover < one step; bars = wraps; each table after the first is the previous one reprogrammed with that bar's change, measure and phrase; history gains each change's evaluation; measure follows the bars |
| App.Engine.CatchUp | SynthUtils.h:234-252 | the loop ends with less than a step of time left and with Progress holding from the accumulated time, the step and the table it started with; each bar's table is the previous one reprogrammed, with one history entry per bar and the measure n bars on |
| App.Engine.RunFrame | Aplication.cpp:184-227 | the sequencer's update as Update states it (steps, leftover, bars, staged notes, the chain of reprogrammed tables, history, measure), then the staged notes are appended to the playing notes and the keyboard is polled |

## Left out

- Audio output (NoiseMaker.h), the sound card callback thread and its block counter: I/O and concurrency. MakeNoise is a method called directly.
- The oscillators, `ScaleToFrequency`, the LFOs and the low-pass filter (`SetFilterPresets`, `FilterOutput`), and the master volume 0.1: floating-point signal maths. The waveform is the `Waveform` parameter; MakeNoise returns the unfiltered mix and the cutoff.
- The socket itself (`StartServer`, `HandleClientMessages`, Winsock, the client thread, `recv` into a reused 1024-byte buffer): I/O and concurrency. BuildMessage takes the received text as a string.
- `std::mutex` and `lock_guard`: every pass runs sequentially on one Engine object.
- `std::chrono`, `sound.GetTime()`, `wallTime`, `GetAsyncKeyState`, the 'Z' key that ends the session, the wait for a client and the call to `EvalauteSession` at exit: clocks and devices. Times and key states are parameters of RunFrame; the evaluation is its own method on the recorded history.
- `rand()` and `std::shuffle`'s engine: randomness. They are input functions; Shuffle is a Fisher-Yates pass over the given draws.
- `std::cout` output everywhere, including the session report's final text and the `std::to_string` of the percentages.
- Floating-point rounding: times, amplitudes, the step length, `NumberOfNotes` (a `float` product) and the percentages are exact reals; the `(int)` cast is the floor.
- Session.EvaluateSession: compares the band counts rather than the percentages; both share one positive divisor, so their order agrees up to float rounding.
- C++ `int` overflow, except in the session's unsigned sum, where it is modelled.
- Undefined behaviour, excluded by preconditions:
  - a pattern shorter than the bar;
  - the release branch of an envelope with release time 0 (percussive instruments, SynthUtils.h:140 and 500);
  - `GenareateNotes` with 0 notes (unsigned underflow).
- `std::map::operator[]` on a missing key (SynthUtils.h:240, NoteGenarator.h:122-124) inserts a default entry. The model reads the default value without the insertion, which is never observed.
- Phrase.NoteGenerator.FindSequence: does not state that the layout found is the first one in the search order. It states that one is found exactly when one exists, with its fragments in non-decreasing list order.
- Phrase.NoteGenerator.Shuffle: states only that the result is a permutation, because the engine's algorithm is not specified by the C++ standard.
- App.Engine.EndBar: keeps RefreshPhrase's statements about the channel table, the history and the chosen change, but drops those about the state machine's new state, first note and note count and about how the phrase was composed. Listing the machine's successive ticks after several wraps would not fit in one contract. StepBar, Advance, CatchUp, Update and RunFrame inherit this.
- App.Engine.Update: chains each bar's table to the one before it through the change and phrase of that bar, but does not tie those changes and phrases to the successive ticks of the state machine; RefreshPhrase states that for one bar. CatchUp and RunFrame inherit this.
- The unused alternatives in NoteGenarator.h (the A major rules, `Rules[]`, its own `AIOutput` and `ChordChange`) and the test table `TetsNoteGenaration` in Aplication.cpp: no code path uses them.
- `LSystem` is modelled and proved, but GetNewPhrase uses `GenareateNotes`, as the source does (the L-system call is commented out there).
- SoundSynthesizer.cpp is not part of this model: the whole file is commented out.
