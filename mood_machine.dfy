/** The mood-driven finite state machine (namespace AI): five mood states
    in a chain, threshold transitions between neighbours, the chord-change
    side effects of entering and leaving a state, and each state's choice
    of how many notes to play and which note to start on. */
module MoodMachine {
  import opened Wrappers

  /** enum ChordChange; its integer values are given by Value. */
  datatype ChordChange = Normal | Inverted | Diminished

  function Value(c: ChordChange): (v: int)
    ensures -1 <= v <= 1
    ensures v == 0 <==> c == Normal
  {
    match c
    case Normal => 0
    case Inverted => 1
    case Diminished => -1
  }

  /** The five states, from the lowest mood band to the highest. */
  datatype MoodState = MoodLow | MoodMidLow | MoodMid | MoodMidHigh | MoodHigh

  /** The position of a state in the chain. */
  function Level(s: MoodState): (l: nat)
    ensures l <= 4
  {
    match s
    case MoodLow => 0
    case MoodMidLow => 1
    case MoodMid => 2
    case MoodMidHigh => 3
    case MoodHigh => 4
  }

  /** The state multiplier of the number of notes (_numberOfNotesMultiplier). */
  function NotesMultiplier(s: MoodState): int {
    match s
    case MoodLow => 2
    case MoodMidLow => 3
    case MoodMid => 4
    case MoodMidHigh => 5
    case MoodHigh => 6
  }

  /** The notes a state likes to start a phrase on (_moodNotes). */
  function MoodNotes(s: MoodState): string {
    match s
    case MoodLow => "ADE"
    case MoodMidLow => "ADE"
    case MoodMid => "ABCDEFG"
    case MoodMidHigh => "CFG"
    case MoodHigh => "CFG"
  }

  /** AIMusicHelper::TwelveBarBluesCordProgression: the chord root of each
      of the twelve measures. */
  const Progression: string := "ADAADDAAEDAE"

  /** AIMusicHelper::MeasureMultiplier, indexed by measure. */
  const MeasureMultiplier: seq<real> := [1.0, 1.0, 1.2, 1.3, 1.4, 1.4, 1.8, 1.8, 1.6, 1.4, 1.3, 1.2]

  /** AIMusicHelper::BluesChordNotes: the three notes of the chord on each
      root the progression uses. */
  function ChordNotes(root: char): string
    requires root in "ADE"
  {
    if root == 'A' then "AEC" else if root == 'D' then "DFA" else "EGB"
  }

  /** The chord of a measure; every root of the progression has an entry. */
  function MeasureChord(measure: int): (chord: string)
    requires 0 <= measure < 12
    ensures |chord| == 3
  {
    assert Progression[measure] in "ADE";
    ChordNotes(Progression[measure])
  }

  /** A transition guard: a strict comparison of the mood value with a
      threshold. */
  datatype Condition = MoodBelow(threshold: int) | MoodAbove(threshold: int)

  predicate Holds(c: Condition, mood: int) {
    match c
    case MoodBelow(t) => mood < t
    case MoodAbove(t) => mood > t
  }

  datatype Transition = Transition(to: MoodState, condition: Condition)

  /** The transition list of each state, in the order the constructor
      adds them. */
  function Outgoing(s: MoodState): seq<Transition> {
    match s
    case MoodHigh => [Transition(MoodMidHigh, MoodBelow(80))]
    case MoodMidHigh => [Transition(MoodHigh, MoodAbove(80)), Transition(MoodMid, MoodBelow(60))]
    case MoodMid => [Transition(MoodMidHigh, MoodAbove(60)), Transition(MoodMidLow, MoodBelow(40))]
    case MoodMidLow => [Transition(MoodMid, MoodAbove(40)), Transition(MoodLow, MoodBelow(20))]
    case MoodLow => [Transition(MoodMidLow, MoodAbove(20))]
  }

  /** The map the constructor builds: every state has its list. */
  function TransitionTable(): map<MoodState, seq<Transition>> {
    map[MoodHigh := Outgoing(MoodHigh), MoodMidHigh := Outgoing(MoodMidHigh), MoodMid := Outgoing(MoodMid),
        MoodMidLow := Outgoing(MoodMidLow), MoodLow := Outgoing(MoodLow)]
  }

  lemma TransitionTableLookup(s: MoodState)
    ensures s in TransitionTable() && TransitionTable()[s] == Outgoing(s)
  {
    match s
    case MoodHigh =>
    case MoodMidHigh =>
    case MoodMid =>
    case MoodMidLow =>
    case MoodLow =>
  }

  /** Every transition links neighbouring states: one level up when the
      mood is strictly above the state's upper threshold, one level down
      when it is strictly below its lower threshold. */
  lemma TransitionsAdjacent(s: MoodState, i: int)
    requires 0 <= i < |Outgoing(s)|
    ensures var t := Outgoing(s)[i];
            (Level(t.to) == Level(s) + 1 && t.condition == MoodAbove(20 * Level(s) + 20)) ||
            (Level(t.to) + 1 == Level(s) && t.condition == MoodBelow(20 * Level(s)))
  {
  }

  /** The target of the first transition in the list whose guard holds
      (GetTransition; None is the transition with a null target). */
  function FirstEnabled(ts: seq<Transition>, mood: int): Option<MoodState> {
    if ts == [] then None
    else if Holds(ts[0].condition, mood) then Some(ts[0].to)
    else FirstEnabled(ts[1..], mood)
  }

  /** FirstEnabled finds nothing exactly when no guard holds, and otherwise
      the target of the earliest transition whose guard holds. */
  lemma {:induction false} FirstEnabledIsFirst(ts: seq<Transition>, mood: int)
    ensures FirstEnabled(ts, mood).None? <==> forall i :: 0 <= i < |ts| ==> !Holds(ts[i].condition, mood)
    ensures FirstEnabled(ts, mood).Some? ==>
              exists i :: 0 <= i < |ts| && Holds(ts[i].condition, mood) && ts[i].to == FirstEnabled(ts, mood).value &&
                          forall j :: 0 <= j < i ==> !Holds(ts[j].condition, mood)
  {
    if ts != [] && !Holds(ts[0].condition, mood) {
      var rest := ts[1..];
      FirstEnabledIsFirst(rest, mood);
      assert forall i :: 0 < i < |ts| ==> ts[i] == rest[i - 1];
      if FirstEnabled(rest, mood).Some? {
        var i :| 0 <= i < |rest| && Holds(rest[i].condition, mood) && rest[i].to == FirstEnabled(rest, mood).value &&
                 forall j :: 0 <= j < i ==> !Holds(rest[j].condition, mood);
        assert ts[i + 1] == rest[i];
      }
    }
  }

  /** The state a state moves to for a mood value, if any. */
  function Next(s: MoodState, mood: int): Option<MoodState> {
    FirstEnabled(Outgoing(s), mood)
  }

  /** A level is stable for a mood if the mood lies in its band (its
      thresholds included); the ends of the chain are open. */
  predicate Stable(level: nat, mood: int) {
    (level == 0 || mood >= 20 * level) && (level == 4 || mood <= 20 * level + 20)
  }

  /** A state has no enabled transition exactly when the mood is in its
      band; otherwise it moves one level toward the mood. */
  lemma NextMovesTowardMood(s: MoodState, mood: int)
    ensures Next(s, mood).None? <==> Stable(Level(s), mood)
    ensures Next(s, mood).Some? ==>
              (mood > 20 * Level(s) + 20 && Level(Next(s, mood).value) == Level(s) + 1) ||
              (mood < 20 * Level(s) && Level(Next(s, mood).value) + 1 == Level(s))
  {
    match s
    case MoodHigh => FirstEnabledOne(Outgoing(s)[0], mood);
    case MoodMidHigh => FirstEnabledTwo(Outgoing(s)[0], Outgoing(s)[1], mood);
    case MoodMid => FirstEnabledTwo(Outgoing(s)[0], Outgoing(s)[1], mood);
    case MoodMidLow => FirstEnabledTwo(Outgoing(s)[0], Outgoing(s)[1], mood);
    case MoodLow => FirstEnabledOne(Outgoing(s)[0], mood);
  }

  lemma FirstEnabledOne(a: Transition, mood: int)
    ensures FirstEnabled([a], mood) == if Holds(a.condition, mood) then Some(a.to) else None
  {
    assert [a][1..] == [];
  }

  lemma FirstEnabledTwo(a: Transition, b: Transition, mood: int)
    ensures FirstEnabled([a, b], mood) ==
            if Holds(a.condition, mood) then Some(a.to) else if Holds(b.condition, mood) then Some(b.to) else None
  {
    assert [a, b][1..] == [b];
    FirstEnabledOne(b, mood);
  }

  /** A mood exactly on a threshold 20, 40, 60 or 80 moves neither of the two
      states whose bands meet there. */
  lemma BoundaryMoodsSticky(s: MoodState, k: int)
    requires 1 <= k <= 4
    requires Level(s) == k || Level(s) == k - 1
    ensures Next(s, 20 * k).None?
  {
    NextMovesTowardMood(s, 20 * k);
  }

  /** OnExit of each state, as a change of the chord change. */
  function ExitEffect(s: MoodState, c: ChordChange): ChordChange {
    match s
    case MoodHigh => Diminished
    case MoodMidHigh => if c == Normal then Diminished else c
    case MoodMid => c
    case MoodMidLow => if c == Normal then Inverted else c
    case MoodLow => Inverted
  }

  /** OnEnter of each state, as a change of the chord change. */
  function EnterEffect(s: MoodState, c: ChordChange): ChordChange {
    match s
    case MoodHigh => Inverted
    case MoodMidHigh => if c == Normal then Inverted else c
    case MoodMid => c
    case MoodMidLow => if c == Normal then Diminished else c
    case MoodLow => Diminished
  }

  /** The chord change after SetState(to) from `from`. */
  function Switch(from: Option<MoodState>, to: MoodState, c: ChordChange): ChordChange {
    if from == Some(to) then c
    else EnterEffect(to, if from.Some? then ExitEffect(from.value, c) else c)
  }

  datatype Settled = Settled(state: MoodState, change: ChordChange, moves: nat)

  /** The transition loop of Tick: follow enabled transitions, at most
      `budget` of them. */
  function Settle(s: MoodState, c: ChordChange, mood: int, budget: nat): (r: Settled)
    ensures r.moves <= budget
    decreases budget
  {
    if budget == 0 then Settled(s, c, 0)
    else match Next(s, mood)
      case None => Settled(s, c, 0)
      case Some(t) =>
        var r := Settle(t, Switch(Some(s), t, c), mood, budget - 1);
        Settled(r.state, r.change, r.moves + 1)
  }

  /** The loop moves the state by exactly as many levels as transitions it
      takes, all in the direction of the mood, never back; if it stops
      early, the state it stops in is stable. */
  lemma {:induction false} SettleMonotone(s: MoodState, c: ChordChange, mood: int, budget: nat)
    decreases budget
    ensures var r := Settle(s, c, mood, budget);
            (r.moves == 0 ==> r.state == s) &&
            (mood > 20 * Level(s) + 20 ==> Level(r.state) == Level(s) + r.moves) &&
            (mood < 20 * Level(s) ==> Level(r.state) + r.moves == Level(s)) &&
            (r.moves < budget ==> Stable(Level(r.state), mood))
  {
    NextMovesTowardMood(s, mood);
    if budget > 0 {
      match Next(s, mood)
      case None =>
      case Some(t) =>
        SettleMonotone(t, Switch(Some(s), t, c), mood, budget - 1);
        NextMovesTowardMood(t, mood);
    }
  }

  /** The chord change after a rise or fall of two levels in one tick that
      started from NORMAL: a rise ends INVERTED, a fall DIMINISHED. */
  lemma {:induction false} TwoLevelJumpChange(s: MoodState, mood: int)
    requires Settle(s, Normal, mood, 2).moves == 2
    ensures mood > 20 * Level(s) + 20 ==> Settle(s, Normal, mood, 2).change == Inverted
    ensures mood < 20 * Level(s) ==> Settle(s, Normal, mood, 2).change == Diminished
  {
    NextMovesTowardMood(s, mood);
    var t := Next(s, mood).value;
    NextMovesTowardMood(t, mood);
  }

  /** A two-level rise does not always end INVERTED: from MoodMidLow with a
      DIMINISHED change left by an earlier two-level fall, the change stays
      DIMINISHED. */
  lemma RiseFromMidLowCanStayDiminished()
    ensures Settle(MoodMidLow, Diminished, 70, 2) == Settled(MoodMidHigh, Diminished, 2)
  {
    NextMovesTowardMood(MoodMidLow, 70);
    NextMovesTowardMood(MoodMid, 70);
    assert Next(MoodMidLow, 70) == Some(MoodMid);
    assert Next(MoodMid, 70) == Some(MoodMidHigh);
    assert Switch(Some(MoodMidLow), MoodMid, Diminished) == Diminished;
    assert Switch(Some(MoodMid), MoodMidHigh, Diminished) == Diminished;
    assert Settle(MoodMidHigh, Diminished, 70, 0) == Settled(MoodMidHigh, Diminished, 0);
    assert Settle(MoodMid, Diminished, 70, 1) == Settled(MoodMidHigh, Diminished, 1);
  }

  /** The note-selection loop of every state's Tick: scan the chord's notes
      in order and return the first one that is also a mood note and
      differs from FirstNote as it is at that moment; FirstNote is reset to
      'B' after each chord note that did not match. */
  function ChooseFirstNote(chord: string, moodNotes: string, current: char): char {
    if chord == [] then current
    else if chord[0] in moodNotes && chord[0] != current then chord[0]
    else ChooseFirstNote(chord[1..], moodNotes, 'B')
  }

  /** The chosen note is 'B' or a note of both the chord and the mood. */
  lemma {:induction false} FirstNoteFromChordAndMood(chord: string, moodNotes: string, current: char)
    requires chord != []
    ensures var n := ChooseFirstNote(chord, moodNotes, current);
            n == 'B' || (n in chord && n in moodNotes)
  {
    if !(chord[0] in moodNotes && chord[0] != current) && chord[1..] != [] {
      FirstNoteFromChordAndMood(chord[1..], moodNotes, 'B');
    }
  }

  /** Because of the reset to 'B' inside the loop, the chosen note can be
      the previous one again: on the D chord in a high mood, F follows F. */
  lemma FirstNoteCanRepeat()
    ensures ChooseFirstNote(MeasureChord(1), MoodNotes(MoodHigh), 'F') == 'F'
  {
  }

  /** NumberOfNotes: the state multiplier times the measure multiplier. */
  function NumberOfNotesFor(s: MoodState, measure: int): (n: real)
    requires 0 <= measure < 12
    ensures 2.0 <= n <= 10.8
  {
    assert 1.0 <= MeasureMultiplier[measure] <= 1.8;
    NotesMultiplier(s) as real * MeasureMultiplier[measure]
  }

  datatype TickResult = TickResult(state: MoodState, change: ChordChange, firstNote: char,
                                   numberOfNotes: real, transitions: nat)

  /** StateMachine::Tick as a function of the state, the output it starts
      from and the two inputs. */
  function TickSpec(s: MoodState, c: ChordChange, firstNote: char, mood: int, measure: int): TickResult
    requires 0 <= measure < 12
  {
    var r := Settle(s, c, mood, 2);
    TickResult(r.state, if r.moves < 2 then Normal else r.change,
               ChooseFirstNote(MeasureChord(measure), MoodNotes(r.state), firstNote),
               NumberOfNotesFor(r.state, measure), r.moves)
  }

  /** A tick takes at most two transitions, so the state moves at most two
      levels, and the change is NORMAL unless exactly two were taken. */
  lemma TickMoves(s: MoodState, c: ChordChange, firstNote: char, mood: int, measure: int)
    requires 0 <= measure < 12
    ensures var r := TickSpec(s, c, firstNote, mood, measure);
            r.transitions <= 2 &&
            -2 <= Level(r.state) - Level(s) <= 2 &&
            (r.transitions != 2 ==> r.change == Normal)
  {
    SettleMonotone(s, c, mood, 2);
    NextMovesTowardMood(s, mood);
    var settled := Settle(s, c, mood, 2);
    var r := TickSpec(s, c, firstNote, mood, measure);
    assert r.state == settled.state && r.transitions == settled.moves;
    if Stable(Level(s), mood) {
      assert settled.moves == 0;
    }
  }

  /** After a tick the first note is 'B' or a note of the measure's chord
      that the new state likes, so always a natural note A..G, and the
      number of notes lies between 2 and 10.8. */
  lemma TickOutputs(s: MoodState, c: ChordChange, firstNote: char, mood: int, measure: int)
    requires 0 <= measure < 12
    ensures var r := TickSpec(s, c, firstNote, mood, measure);
            (r.firstNote == 'B' ||
             (r.firstNote in MeasureChord(measure) && r.firstNote in MoodNotes(r.state))) &&
            r.firstNote in "ABCDEFG" &&
            2.0 <= r.numberOfNotes <= 10.8
  {
    var state := Settle(s, c, mood, 2).state;
    var chord := MeasureChord(measure);
    var moodNotes := MoodNotes(state);
    FirstNoteFromChordAndMood(chord, moodNotes, firstNote);
    var n := ChooseFirstNote(chord, moodNotes, firstNote);
    assert TickSpec(s, c, firstNote, mood, measure).firstNote == n;
    assert forall x :: x in moodNotes ==> x in "ABCDEFG";
  }

  /** struct AIInput. */
  class AIInput {
    var moodValue: int
    var currentMeasure: int

    constructor ()
      ensures moodValue == 0 && currentMeasure == 0
    {
      moodValue := 0;
      currentMeasure := 0;
    }
  }

  /** struct AIOutput. */
  class AIOutput {
    var firstNote: char
    var numberOfNotes: real
    var change: ChordChange

    constructor ()
      ensures firstNote == ' ' && numberOfNotes == 1.0 && change == Normal
    {
      firstNote := ' ';
      numberOfNotes := 1.0;
      change := Normal;
    }
  }

  /** IState::OnEnter of each state. */
  method OnEnter(s: MoodState, output: AIOutput)
    modifies output
    ensures output.change == EnterEffect(s, old(output.change))
    ensures output.firstNote == old(output.firstNote) && output.numberOfNotes == old(output.numberOfNotes)
  {
    match s
    case MoodHigh => output.change := Inverted;
    case MoodMidHigh => if output.change == Normal { output.change := Inverted; }
    case MoodMid =>
    case MoodMidLow => if output.change == Normal { output.change := Diminished; }
    case MoodLow => output.change := Diminished;
  }

  /** IState::OnExit of each state. */
  method OnExit(s: MoodState, output: AIOutput)
    modifies output
    ensures output.change == ExitEffect(s, old(output.change))
    ensures output.firstNote == old(output.firstNote) && output.numberOfNotes == old(output.numberOfNotes)
  {
    match s
    case MoodHigh => output.change := Diminished;
    case MoodMidHigh => if output.change == Normal { output.change := Diminished; }
    case MoodMid =>
    case MoodMidLow => if output.change == Normal { output.change := Inverted; }
    case MoodLow => output.change := Inverted;
  }

  /** IState::Tick of each state: set the number of notes for the current
      measure, then pick the first note with the nested loops over the
      chord's notes and the state's mood notes. */
  method StateTick(s: MoodState, input: AIInput, output: AIOutput)
    requires 0 <= input.currentMeasure < 12
    modifies output
    ensures output.numberOfNotes == NumberOfNotesFor(s, input.currentMeasure)
    ensures output.firstNote == ChooseFirstNote(MeasureChord(input.currentMeasure), MoodNotes(s),
                                                old(output.firstNote))
    ensures output.change == old(output.change)
  {
    var measure := input.currentMeasure;
    output.numberOfNotes := NumberOfNotesFor(s, measure);
    var note := PickFirstNote(MeasureChord(measure), MoodNotes(s), output.firstNote);
    output.firstNote := note;
  }

  /** The nested loops of Tick, on the value FirstNote has when they start:
      the first chord note that is a mood note and differs from FirstNote,
      with FirstNote reset to 'B' after each chord note that did not match. */
  method PickFirstNote(chordNotes: string, moodNotes: string, start: char) returns (firstNote: char)
    ensures firstNote == ChooseFirstNote(chordNotes, moodNotes, start)
  {
    firstNote := start;
    var i := 0;
    while i < |chordNotes|
      invariant 0 <= i <= |chordNotes|
      invariant ChooseFirstNote(chordNotes[i..], moodNotes, firstNote)
                == ChooseFirstNote(chordNotes, moodNotes, start)
    {
      var chordNote := chordNotes[i];
      var j := 0;
      while j < |moodNotes|
        invariant 0 <= j <= |moodNotes|
        invariant chordNote == firstNote || chordNote !in moodNotes[..j]
      {
        var moodNote := moodNotes[j];
        if moodNote == chordNote && moodNote != firstNote {
          assert chordNote in moodNotes;
          firstNote := moodNote;
          return;
        }
        assert moodNotes[..j + 1] == moodNotes[..j] + [moodNote];
        j := j + 1;
      }
      assert moodNotes[..j] == moodNotes;
      assert chordNotes[i..][1..] == chordNotes[i + 1..];
      firstNote := 'B';
      i := i + 1;
    }
  }

  /** class StateMachine.  The five state objects are the MoodState values;
      `transitions` is the map from a state to its outgoing transitions. */
  class StateMachine {
    const input: AIInput
    const output: AIOutput
    var currentState: Option<MoodState>
    var transitions: map<MoodState, seq<Transition>>
    var currentTransitions: seq<Transition>

    predicate Valid()
      reads this
    {
      transitions == TransitionTable() && currentState.Some? &&
      currentTransitions == Outgoing(currentState.value)
    }

    /** The output starts as NORMAL, ' ' and 1; the machine adds the eight
        transitions and enters MoodLow, whose OnEnter makes the change
        DIMINISHED.  The current state is initially no state. */
    constructor ()
      ensures Valid() && fresh(input) && fresh(output)
      ensures currentState == Some(MoodLow)
      ensures output.change == Diminished && output.firstNote == ' ' && output.numberOfNotes == 1.0
    {
      input := new AIInput();
      output := new AIOutput();
      currentState := None;
      transitions := map[];
      currentTransitions := [];
      new;
      AddTransitions();
      SetState(MoodLow);
    }

    /** The eight AddTransition calls of the constructor, on an empty map:
        first those of the two upper states, then those of the other three. */
    method AddTransitions()
      requires transitions == map[]
      modifies this
      ensures transitions == TransitionTable()
      ensures currentState == old(currentState) && currentTransitions == old(currentTransitions)
    {
      AddUpperTransitions();
      AddLowerTransitions();
    }

    method AddUpperTransitions()
      requires transitions == map[]
      modifies this
      ensures transitions == map[MoodHigh := Outgoing(MoodHigh), MoodMidHigh := Outgoing(MoodMidHigh)]
      ensures currentState == old(currentState) && currentTransitions == old(currentTransitions)
    {
      AddTransition(MoodHigh, MoodMidHigh, MoodBelow(80));
      assert [] + [Transition(MoodMidHigh, MoodBelow(80))] == Outgoing(MoodHigh);
      assert transitions == map[MoodHigh := Outgoing(MoodHigh)];
      AddTransition(MoodMidHigh, MoodHigh, MoodAbove(80));
      AddTransition(MoodMidHigh, MoodMid, MoodBelow(60));
      assert [] + [Transition(MoodHigh, MoodAbove(80))] + [Transition(MoodMid, MoodBelow(60))] == Outgoing(MoodMidHigh);
    }

    method AddLowerTransitions()
      requires transitions == map[MoodHigh := Outgoing(MoodHigh), MoodMidHigh := Outgoing(MoodMidHigh)]
      modifies this
      ensures transitions == TransitionTable()
      ensures currentState == old(currentState) && currentTransitions == old(currentTransitions)
    {
      AddTransition(MoodMid, MoodMidHigh, MoodAbove(60));
      AddTransition(MoodMid, MoodMidLow, MoodBelow(40));
      assert [] + [Transition(MoodMidHigh, MoodAbove(60))] + [Transition(MoodMidLow, MoodBelow(40))] == Outgoing(MoodMid);
      assert transitions == map[MoodHigh := Outgoing(MoodHigh), MoodMidHigh := Outgoing(MoodMidHigh),
                                MoodMid := Outgoing(MoodMid)];
      AddTransition(MoodMidLow, MoodMid, MoodAbove(40));
      AddTransition(MoodMidLow, MoodLow, MoodBelow(20));
      assert [] + [Transition(MoodMid, MoodAbove(40))] + [Transition(MoodLow, MoodBelow(20))] == Outgoing(MoodMidLow);
      assert transitions == map[MoodHigh := Outgoing(MoodHigh), MoodMidHigh := Outgoing(MoodMidHigh),
                                MoodMid := Outgoing(MoodMid), MoodMidLow := Outgoing(MoodMidLow)];
      AddTransition(MoodLow, MoodMidLow, MoodAbove(20));
      assert [] + [Transition(MoodMidLow, MoodAbove(20))] == Outgoing(MoodLow);
    }

    /** StateMachine::AddTransition: append to the list of `from`, creating
        the list if there is none. */
    method AddTransition(from: MoodState, to: MoodState, condition: Condition)
      modifies this
      ensures transitions == old(transitions)[from := (if from in old(transitions) then old(transitions)[from] else [])
                                                      + [Transition(to, condition)]]
      ensures currentState == old(currentState) && currentTransitions == old(currentTransitions)
    {
      if from !in transitions {
        transitions := transitions[from := []];
      }
      transitions := transitions[from := transitions[from] + [Transition(to, condition)]];
    }

    /** StateMachine::SetState: nothing for the current state; otherwise
        leave the old state, take the new one and its transitions, and
        enter it. */
    method SetState(newState: MoodState)
      requires transitions == TransitionTable()
      modifies this, output
      ensures transitions == old(transitions)
      ensures currentState == Some(newState)
      ensures currentTransitions == (if old(currentState) == Some(newState) then old(currentTransitions)
                                     else Outgoing(newState))
      ensures output.change == Switch(old(currentState), newState, old(output.change))
      ensures output.firstNote == old(output.firstNote) && output.numberOfNotes == old(output.numberOfNotes)
    {
      if currentState == Some(newState) {
        return;
      }
      if currentState.Some? {
        OnExit(currentState.value, output);
      }
      currentState := Some(newState);
      TransitionTableLookup(newState);
      currentTransitions := transitions[newState];
      OnEnter(newState, output);
    }

    /** StateMachine::GetTransition: the first current transition whose
        guard holds for the input's mood. */
    method GetTransition() returns (to: Option<MoodState>)
      ensures to == FirstEnabled(currentTransitions, input.moodValue)
    {
      var i := 0;
      while i < |currentTransitions|
        invariant 0 <= i <= |currentTransitions|
        invariant FirstEnabled(currentTransitions[i..], input.moodValue)
                  == FirstEnabled(currentTransitions, input.moodValue)
      {
        var t := currentTransitions[i];
        var holds := match t.condition
          case MoodBelow(threshold) => input.moodValue < threshold
          case MoodAbove(threshold) => input.moodValue > threshold;
        if holds {
          return Some(t.to);
        }
        assert currentTransitions[i..][1..] == currentTransitions[i + 1..];
        i := i + 1;
      }
      return None;
    }

    /** StateMachine::Tick: store the inputs, take at most two transitions,
        let the current state tick, and reset the change to NORMAL unless
        two transitions were taken. */
    method Tick(moodValue: int, currentMeasure: int)
      requires Valid() && 0 <= currentMeasure < 12
      modifies this, input, output
      ensures Valid()
      ensures input.moodValue == moodValue && input.currentMeasure == currentMeasure
      ensures var r := TickSpec(old(currentState).value, old(output.change), old(output.firstNote),
                                moodValue, currentMeasure);
              currentState == Some(r.state) && output.change == r.change &&
              output.firstNote == r.firstNote && output.numberOfNotes == r.numberOfNotes
    {
      input.moodValue := moodValue;
      input.currentMeasure := currentMeasure;
      ghost var goal := Settle(currentState.value, output.change, moodValue, 2);
      var transition := GetTransition();
      var it := 0;
      while transition.Some? && it < 2
        invariant 0 <= it <= 2 && Valid()
        invariant input.moodValue == moodValue && input.currentMeasure == currentMeasure
        invariant output.firstNote == old(output.firstNote)
        invariant transition == Next(currentState.value, moodValue)
        invariant var r := Settle(currentState.value, output.change, moodValue, 2 - it);
                  r.state == goal.state && r.change == goal.change && r.moves + it == goal.moves
      {
        SetState(transition.value);
        transition := GetTransition();
        it := it + 1;
      }
      StateTick(currentState.value, input, output);
      if it < 2 {
        output.change := Normal;
      }
    }
  }
}
