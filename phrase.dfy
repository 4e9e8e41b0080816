/** The phrase generator (namespace NGen): a bar of beats packed from
    one-hit fragments, a chain of notes grown by the A minor rules, and the
    merge of the two into a 16-step pattern.  rand() values and the draws
    of the shuffle's random engine are inputs. */
module Phrase {

  /** The fragment types of NoteTypes in their initial order: a hit
      followed by rests, lasting 8, 4, 2 and 1 steps. */
  const InitialNoteTypes: seq<string> := ["x.......", "x...", "x.", "x"]

  /** The steps of a bar. */
  const BarLength: int := 16

  /** RuleOfThirdsAMinor: each natural note to the note a third above. */
  const ThirdsAMinor: map<char, char> :=
    map['A' := 'C', 'B' := 'D', 'C' := 'E', 'D' := 'F', 'E' := 'G', 'F' := 'A', 'G' := 'B']

  /** RuleOfHarmonyAMinor: where the active notes resolve. */
  const HarmonyAMinor: map<char, char> := map['B' := 'C', 'D' := 'C', 'F' := 'E', 'G' := 'A']

  /** AtiveNotesAMinor: the notes that want to resolve. */
  const ActiveNotesAMinor: string := "BDFG"

  /** The seven natural notes of A minor. */
  const Naturals: string := "ABCDEFG"

  /** std::map::operator[] on a char map: a missing key reads as '\0'
      (after being inserted with that value). */
  function Lookup(m: map<char, char>, c: char): char {
    if c in m then m[c] else '\0'
  }

  /** GenareateNote, given the value of rand() % 10: repeat the last note
      (value 0), resolve an active note (values 1 to 5), or move a third up. */
  function NextNote(last: char, randValue: int): char {
    if randValue < 1 then last
    else if last in ActiveNotesAMinor && randValue < 6 then Lookup(HarmonyAMinor, last)
    else Lookup(ThirdsAMinor, last)
  }

  /** The next note is the last one, its resolution (only for an active
      note), or its third; starting from a natural note it is natural. */
  lemma NextNoteChoices(last: char, randValue: int)
    ensures var note := NextNote(last, randValue);
            note == last ||
            (last in ActiveNotesAMinor && note == HarmonyAMinor[last]) ||
            note == Lookup(ThirdsAMinor, last)
    ensures last in Naturals ==> NextNote(last, randValue) in Naturals
  {
  }

  /** Which rule fires for each rand() % 10 value: one value in ten repeats,
      five in ten resolve an active note, the rest move a third. */
  lemma NextNoteBands(last: char, randValue: int)
    requires 0 <= randValue < 10 && last in Naturals
    ensures randValue == 0 ==> NextNote(last, randValue) == last
    ensures 1 <= randValue < 6 && last in ActiveNotesAMinor ==>
              NextNote(last, randValue) == HarmonyAMinor[last] && NextNote(last, randValue) != last
    ensures (randValue >= 6 || last !in ActiveNotesAMinor) && randValue > 0 ==>
              NextNote(last, randValue) == ThirdsAMinor[last] && NextNote(last, randValue) != last
  {
  }

  /** A chain of notes as GenareateNotes draws them: it starts at `first`
      and each later note is drawn from the one before it with the next
      rand() value. */
  predicate IsNoteChain(notes: string, first: char, rands: seq<nat>) {
    |notes| >= 1 && notes[0] == first && |rands| >= |notes| - 1 &&
    forall i :: 1 <= i < |notes| ==> notes[i] == NextNote(notes[i - 1], rands[i - 1] % 10)
  }

  /** GenareateNotes: start from the axiom and append numberOfNotes - 1
      notes, each drawn from the last one with the next rand() value. */
  method GenerateNotes(axium: char, numberOfNotes: int, rands: seq<nat>) returns (notes: string)
    requires numberOfNotes >= 1 && |rands| >= numberOfNotes - 1
    ensures |notes| == numberOfNotes && IsNoteChain(notes, axium, rands)
    ensures axium in Naturals ==> forall i :: 0 <= i < |notes| ==> notes[i] in Naturals
  {
    notes := [axium];
    var i := 0;
    while i < numberOfNotes - 1
      invariant 0 <= i <= numberOfNotes - 1
      invariant |notes| == i + 1 && notes[0] == axium
      invariant forall j :: 1 <= j < |notes| ==> notes[j] == NextNote(notes[j - 1], rands[j - 1] % 10)
      invariant axium in Naturals ==> forall j :: 0 <= j < |notes| ==> notes[j] in Naturals
    {
      var lastSequenceNote := notes[|notes| - 1];
      var randValue := rands[i] % 10;
      var note;
      if randValue < 1 {
        note := lastSequenceNote;
      } else if lastSequenceNote in ActiveNotesAMinor && randValue < 6 {
        note := Lookup(HarmonyAMinor, lastSequenceNote);
      } else {
        note := Lookup(ThirdsAMinor, lastSequenceNote);
      }
      NextNoteChoices(lastSequenceNote, randValue);
      notes := notes + [note];
      i := i + 1;
    }
  }

  /** One generation of the L-system: the first note, then for each note of
      the current string the note drawn from it; rand(k + j) is the rand()
      value used for the j-th note.  An empty string reads '\0' at index 0. */
  function Generation(current: string, rand: nat -> nat, k: nat): (next: string)
    ensures |next| == |current| + 1
  {
    [if current == [] then '\0' else current[0]]
    + seq(|current|, j requires 0 <= j < |current| => NextNote(current[j], rand(k + j) % 10))
  }

  /** NexGenaration: the loop over the current string. */
  method NextGeneration(current: string, rand: nat -> nat, k: nat) returns (next: string)
    ensures next == Generation(current, rand, k)
  {
    next := [if current == [] then '\0' else current[0]];
    var i := 0;
    while i < |current|
      invariant 0 <= i <= |current|
      invariant |next| == i + 1 && next[0] == Generation(current, rand, k)[0]
      invariant forall j :: 1 <= j <= i ==> next[j] == Generation(current, rand, k)[j]
    {
      var c := NextNote(current[i], rand(k + i) % 10);
      next := next + [c];
      i := i + 1;
    }
  }

  /** LSystem: grow generations until the string has numberOfNotes notes.
      The j-th rand() value of the whole run is rand(k + j). */
  function LSystem(axium: string, numberOfNotes: nat, rand: nat -> nat, k: nat): string
    decreases numberOfNotes - |axium|
  {
    if |axium| >= numberOfNotes then axium
    else LSystem(Generation(axium, rand, k), numberOfNotes, rand, k + |axium|)
  }

  /** The L-system stops with exactly numberOfNotes notes when the axiom is
      shorter, and returns the axiom itself otherwise. */
  lemma {:induction false} LSystemLength(axium: string, numberOfNotes: nat, rand: nat -> nat, k: nat)
    ensures |LSystem(axium, numberOfNotes, rand, k)| == if |axium| >= numberOfNotes then |axium| else numberOfNotes
    decreases numberOfNotes - |axium|
  {
    if |axium| < numberOfNotes {
      LSystemLength(Generation(axium, rand, k), numberOfNotes, rand, k + |axium|);
    }
  }

  /** Every generation, and so the whole L-system, keeps the axiom's first
      note, and a string of natural notes only grows natural notes. */
  lemma {:induction false} LSystemNotes(axium: string, numberOfNotes: nat, rand: nat -> nat, k: nat)
    requires axium != []
    ensures var r := LSystem(axium, numberOfNotes, rand, k);
            r != [] && r[0] == axium[0] &&
            ((forall i :: 0 <= i < |axium| ==> axium[i] in Naturals) ==>
               forall i :: 0 <= i < |r| ==> r[i] in Naturals)
    decreases numberOfNotes - |axium|
  {
    if |axium| < numberOfNotes {
      var next := Generation(axium, rand, k);
      forall j | 0 <= j < |axium| ensures axium[j] in Naturals ==> next[j + 1] in Naturals {
        NextNoteChoices(axium[j], rand(k + j) % 10);
      }
      LSystemNotes(next, numberOfNotes, rand, k + |axium|);
    }
  }

  /** The number of hits in a string of beats. */
  function CountHits(s: string): nat {
    multiset(s)['x']
  }

  /** A fragment lasts at least one step, holds hits and rests only, and
      exactly one hit. */
  predicate Fragment(t: string) {
    |t| >= 1 && CountHits(t) == 1 && BeatsOnly(t)
  }

  predicate Fragments(types: seq<string>) {
    forall i :: 0 <= i < |types| ==> Fragment(types[i])
  }

  /** The fragments picked, in order, laid end to end. */
  function Concat(types: seq<string>, picks: seq<nat>): string
    requires forall j :: 0 <= j < |picks| ==> picks[j] < |types|
  {
    if picks == [] then [] else types[picks[0]] + Concat(types, picks[1..])
  }

  /** Indices picked in non-decreasing order, none below `from`. */
  predicate PicksFrom(types: seq<string>, picks: seq<nat>, from: nat) {
    (forall j :: 0 <= j < |picks| ==> from <= picks[j] < |types|) &&
    (forall j, l :: 0 <= j < l < |picks| ==> picks[j] <= picks[l])
  }

  /** Whether k more fragments with indices from `from` on, in
      non-decreasing order, can fill a phrase of `len` steps to exactly
      16; the search may only add a fragment that fits. */
  predicate Fits(types: seq<string>, len: int, k: int, from: nat)
    decreases BarLength - len, 1, 0
  {
    if len >= BarLength || k <= 0 then len == BarLength && k == 0
    else FitsAt(types, len, k, from)
  }

  predicate FitsAt(types: seq<string>, len: int, k: int, i: nat)
    requires len < BarLength
    decreases BarLength - len, 0, |types| - i
  {
    i < |types| &&
    ((0 < |types[i]| && len + |types[i]| <= BarLength && Fits(types, len + |types[i]|, k - 1, i)) ||
     FitsAt(types, len, k, i + 1))
  }

  lemma {:induction false} ConcatAppend(types: seq<string>, picks: seq<nat>, i: nat)
    requires forall j :: 0 <= j < |picks| ==> picks[j] < |types|
    requires i < |types|
    ensures Concat(types, [i] + picks) == types[i] + Concat(types, picks)
  {
    assert ([i] + picks)[1..] == picks;
  }

  /** A fragment layout fills its length with exactly one hit per fragment. */
  lemma {:induction false} ConcatShape(types: seq<string>, picks: seq<nat>)
    requires Fragments(types)
    requires forall j :: 0 <= j < |picks| ==> picks[j] < |types|
    ensures CountHits(Concat(types, picks)) == |picks|
  {
    if picks != [] {
      ConcatShape(types, picks[1..]);
      assert multiset(types[picks[0]] + Concat(types, picks[1..]))
             == multiset(types[picks[0]]) + multiset(Concat(types, picks[1..]));
    }
  }

  /** The total length of the picked fragments. */
  function Span(types: seq<string>, picks: seq<nat>): int
    requires forall j :: 0 <= j < |picks| ==> picks[j] < |types|
  {
    if picks == [] then 0 else |types[picks[0]]| + Span(types, picks[1..])
  }

  lemma {:induction false} ConcatLength(types: seq<string>, picks: seq<nat>)
    requires forall j :: 0 <= j < |picks| ==> picks[j] < |types|
    ensures |Concat(types, picks)| == Span(types, picks)
  {
    if picks != [] {
      ConcatLength(types, picks[1..]);
    }
  }

  /** Any non-decreasing layout of k fragments that fills the phrase
      exactly is found by Fits. */
  lemma {:induction false} FitsFromPicks(types: seq<string>, len: int, picks: seq<nat>, from: nat)
    requires Fragments(types) && PicksFrom(types, picks, from)
    requires len + Span(types, picks) == BarLength
    ensures Fits(types, len, |picks|, from)
    decreases |picks|
  {
    if picks != [] {
      var first := picks[0];
      var rest := picks[1..];
      SpanPositive(types, rest);
      assert PicksFrom(types, rest, first);
      FitsFromPicks(types, len + |types[first]|, rest, first);
      FitsAtUpTo(types, len, |picks|, from, first);
    }
  }

  lemma SpanPositive(types: seq<string>, picks: seq<nat>)
    requires Fragments(types)
    requires forall j :: 0 <= j < |picks| ==> picks[j] < |types|
    ensures Span(types, picks) >= |picks|
  {
  }

  lemma {:induction false} FitsAtUpTo(types: seq<string>, len: int, k: int, i: nat, target: nat)
    requires Fragments(types) && len < BarLength
    requires i <= target < |types|
    requires len + |types[target]| <= BarLength && Fits(types, len + |types[target]|, k - 1, target)
    ensures FitsAt(types, len, k, i)
    ensures k >= 1 ==> Fits(types, len, k, i)
    decreases target - i
  {
    if i < target {
      FitsAtUpTo(types, len, k, i + 1, target);
    }
  }

  function Repeat(i: nat, count: nat): (r: seq<nat>)
    ensures |r| == count && forall j :: 0 <= j < count ==> r[j] == i
  {
    if count == 0 then [] else [i] + Repeat(i, count - 1)
  }

  lemma {:induction false} SpanRepeat(types: seq<string>, i: nat, count: nat)
    requires i < |types|
    ensures Span(types, Repeat(i, count)) == count * |types[i]|
  {
    if count > 0 {
      SpanRepeat(types, i, count - 1);
      assert Repeat(i, count)[1..] == Repeat(i, count - 1);
    }
  }

  lemma {:induction false} SpanAppend(types: seq<string>, a: seq<nat>, b: seq<nat>)
    requires forall j :: 0 <= j < |a| ==> a[j] < |types|
    requires forall j :: 0 <= j < |b| ==> b[j] < |types|
    ensures Span(types, a + b) == Span(types, a) + Span(types, b)
  {
    if a != [] {
      assert (a + b)[0] == a[0];
      assert (a + b)[1..] == a[1..] + b;
      SpanAppend(types, a[1..], b);
      calc {
        Span(types, a + b);
        |types[a[0]]| + Span(types, (a + b)[1..]);
        |types[a[0]]| + Span(types, a[1..] + b);
        |types[a[0]]| + Span(types, a[1..]) + Span(types, b);
        Span(types, a) + Span(types, b);
      }
    } else {
      assert a + b == b;
    }
  }

  /** The fragment types are a permutation of the initial ones. */
  predicate IsNoteTypes(types: seq<string>) {
    multiset(types) == multiset(InitialNoteTypes)
  }

  lemma InitialFragments()
    ensures Fragment("x.......") && Fragment("x...") && Fragment("x.") && Fragment("x")
  {
    assert multiset("x.......")['x'] == 1;
    assert multiset("x...")['x'] == 1;
    assert multiset("x.")['x'] == 1;
  }

  /** Every member of a permutation of the initial list is one of its four
      fragments, each shorter than a bar. */
  lemma FragmentAt(types: seq<string>, i: int)
    requires IsNoteTypes(types) && 0 <= i < |types|
    ensures Fragment(types[i]) && |types[i]| < BarLength
  {
    assert types[i] in multiset(types);
    assert types[i] in multiset(InitialNoteTypes);
    InitialFragments();
    var t := types[i];
    assert t == "x......." || t == "x..." || t == "x." || t == "x";
  }

  lemma NoteTypesAreFragments(types: seq<string>)
    requires IsNoteTypes(types)
    ensures Fragments(types)
    ensures forall i :: 0 <= i < |types| ==> |types[i]| < BarLength
  {
    forall i | 0 <= i < |types| ensures Fragment(types[i]) && |types[i]| < BarLength {
      FragmentAt(types, i);
    }
  }

  /** The position of a given fragment in a permutation of the list. */
  lemma IndexOf(types: seq<string>, fragment: string) returns (i: nat)
    requires IsNoteTypes(types) && fragment in InitialNoteTypes
    ensures i < |types| && types[i] == fragment
  {
    assert fragment in multiset(InitialNoteTypes);
    assert fragment in multiset(types);
    assert fragment in types;
    i :| 0 <= i < |types| && types[i] == fragment;
  }

  lemma RepeatsSorted(types: seq<string>, i: nat, countI: nat, j: nat, countJ: nat)
    requires i <= j < |types|
    ensures PicksFrom(types, Repeat(i, countI) + Repeat(j, countJ), 0)
  {
    var picks := Repeat(i, countI) + Repeat(j, countJ);
    assert forall l :: 0 <= l < countI ==> picks[l] == i;
    assert forall l :: countI <= l < |picks| ==> picks[l] == j;
  }

  /** A layout of countA fragments at index ia and countB fragments at
      index ib, in the order the two sit in the list. */
  lemma TwoKindLayout(types: seq<string>, ia: nat, countA: nat, ib: nat, countB: nat)
    requires Fragments(types) && ia < |types| && ib < |types|
    requires countA * |types[ia]| + countB * |types[ib]| == BarLength
    ensures Fits(types, 0, countA + countB, 0)
  {
    SpanRepeat(types, ia, countA);
    SpanRepeat(types, ib, countB);
    if ia <= ib {
      var picks := Repeat(ia, countA) + Repeat(ib, countB);
      SpanAppend(types, Repeat(ia, countA), Repeat(ib, countB));
      RepeatsSorted(types, ia, countA, ib, countB);
      FitsFromPicks(types, 0, picks, 0);
    } else {
      var picks := Repeat(ib, countB) + Repeat(ia, countA);
      SpanAppend(types, Repeat(ib, countB), Repeat(ia, countA));
      RepeatsSorted(types, ib, countB, ia, countA);
      FitsFromPicks(types, 0, picks, 0);
    }
  }

  /** Whatever order the shuffle leaves, any number of hits from 2 to 16
      can be packed into a 16-step bar: 2 or 3 with halves and quarters, 4
      to 8 with quarters and eighths, 9 to 16 with eighths and sixteenths. */
  lemma EveryCountFits(types: seq<string>, n: int)
    requires IsNoteTypes(types) && 2 <= n <= BarLength
    ensures Fits(types, 0, n, 0)
  {
    var i8, i4, i2, i1 := FragmentIndices(types);
    CountsFit(types, i8, i4, i2, i1, n);
  }

  /** Where the fragments of 8, 4, 2 and 1 steps sit after a shuffle. */
  lemma FragmentIndices(types: seq<string>) returns (i8: nat, i4: nat, i2: nat, i1: nat)
    requires IsNoteTypes(types)
    ensures Fragments(types)
    ensures i8 < |types| && i4 < |types| && i2 < |types| && i1 < |types|
    ensures |types[i8]| == 8 && |types[i4]| == 4 && |types[i2]| == 2 && |types[i1]| == 1
  {
    NoteTypesAreFragments(types);
    i8 := IndexOf(types, "x.......");
    i4 := IndexOf(types, "x...");
    i2 := IndexOf(types, "x.");
    i1 := IndexOf(types, "x");
  }

  lemma CountsFit(types: seq<string>, i8: nat, i4: nat, i2: nat, i1: nat, n: int)
    requires Fragments(types)
    requires i8 < |types| && i4 < |types| && i2 < |types| && i1 < |types|
    requires |types[i8]| == 8 && |types[i4]| == 4 && |types[i2]| == 2 && |types[i1]| == 1
    requires 2 <= n <= BarLength
    ensures Fits(types, 0, n, 0)
  {
    if n <= 3 {
      MixedFit(types, i8, i4, 2, n - 2);
    } else if n <= 8 {
      MixedFit(types, i4, i2, 4, n - 4);
    } else {
      MixedFit(types, i2, i1, 8, n - 8);
    }
  }

  /** With q long fragments filling the bar and short ones half as long,
      trading `extra` long ones for twice as many short ones still fills it. */
  lemma MixedFit(types: seq<string>, longer: nat, shorter: nat, q: nat, extra: nat)
    requires Fragments(types) && longer < |types| && shorter < |types|
    requires |types[longer]| == 2 * |types[shorter]| && q * |types[longer]| == BarLength
    requires extra <= q
    ensures Fits(types, 0, q + extra, 0)
  {
    assert (q - extra) * |types[longer]| + (2 * extra) * |types[shorter]| == BarLength;
    TwoKindLayout(types, longer, q - extra, shorter, 2 * extra);
  }

  /** A single fragment never fills a bar. */
  lemma NoSingleFragmentBar(types: seq<string>)
    requires IsNoteTypes(types)
    ensures !Fits(types, 0, 1, 0)
  {
    NoteTypesAreFragments(types);
    NoFitOfOne(types, 0);
  }

  lemma {:induction false} NoFitOfOne(types: seq<string>, i: nat)
    requires Fragments(types)
    requires forall j :: 0 <= j < |types| ==> |types[j]| < BarLength
    ensures !FitsAt(types, 0, 1, i)
    decreases |types| - i
  {
    if i < |types| {
      NoFitOfOne(types, i + 1);
    }
  }

  /** The number of hits among the first j steps: the index of the note a
      hit at step j takes. */
  function HitsBefore(s: string, j: nat): nat
    requires j <= |s|
  {
    if j == 0 then 0 else HitsBefore(s, j - 1) + (if s[j - 1] == 'x' then 1 else 0)
  }

  lemma {:induction false} HitsBeforeCount(s: string, j: nat)
    requires j <= |s|
    ensures HitsBefore(s, j) == CountHits(s[..j])
  {
    if j > 0 {
      HitsBeforeCount(s, j - 1);
      assert s[..j] == s[..j - 1] + [s[j - 1]];
      assert multiset(s[..j]) == multiset(s[..j - 1]) + multiset{s[j - 1]};
    }
  }

  lemma {:induction false} HitsBeforeMonotone(s: string, j: nat, l: nat)
    requires j <= l <= |s|
    ensures HitsBefore(s, j) <= HitsBefore(s, l)
    decreases l - j
  {
    if j < l {
      HitsBeforeMonotone(s, j, l - 1);
    }
  }

  /** `merged` is `beats` with each hit replaced by the next of `notes`:
      the hit at step i takes note HitsBefore(beats, i), and every other
      step is copied. */
  predicate IsMerge(beats: string, notes: string, merged: string) {
    |merged| == |beats| &&
    (forall i :: 0 <= i < |beats| && beats[i] != 'x' ==> merged[i] == beats[i]) &&
    (forall i :: 0 <= i < |beats| && beats[i] == 'x' ==>
       HitsBefore(beats, i) < |notes| && merged[i] == notes[HitsBefore(beats, i)])
  }

  /** A merge of a hit-and-rest pattern with natural notes holds only rests
      and natural notes, and its rests are exactly the pattern's rests. */
  lemma MergedLetters(beats: string, notes: string, merged: string)
    requires BeatsOnly(beats) && IsMerge(beats, notes, merged)
    requires forall i :: 0 <= i < |notes| ==> notes[i] in Naturals
    ensures forall i :: 0 <= i < |merged| ==> merged[i] == '.' || merged[i] in Naturals
    ensures forall i :: 0 <= i < |merged| ==> (merged[i] == '.' <==> beats[i] == '.')
  {
    forall i | 0 <= i < |merged|
      ensures merged[i] == '.' || merged[i] in Naturals
      ensures merged[i] == '.' <==> beats[i] == '.'
    {
      if beats[i] == 'x' {
        assert merged[i] == notes[HitsBefore(beats, i)];
      }
    }
  }

  /** The merge of GetNewPhrase: each hit of the beat pattern takes the next
      generated note, every other character is copied. */
  method MergePhrase(beatSequence: string, notes: string) returns (finalSequence: string)
    requires CountHits(beatSequence) <= |notes|
    ensures IsMerge(beatSequence, notes, finalSequence)
  {
    HitsBeforeCount(beatSequence, |beatSequence|);
    assert beatSequence[..|beatSequence|] == beatSequence;
    finalSequence := [];
    var notesUsed := 0;
    var i := 0;
    while i < |beatSequence|
      invariant 0 <= i <= |beatSequence|
      invariant |finalSequence| == i && notesUsed == HitsBefore(beatSequence, i)
      invariant forall j :: 0 <= j < i && beatSequence[j] != 'x' ==> finalSequence[j] == beatSequence[j]
      invariant forall j :: 0 <= j < i && beatSequence[j] == 'x' ==>
                  HitsBefore(beatSequence, j) < |notes| && finalSequence[j] == notes[HitsBefore(beatSequence, j)]
    {
      var beat := beatSequence[i];
      HitsBeforeMonotone(beatSequence, i + 1, |beatSequence|);
      if beat == 'x' {
        finalSequence := finalSequence + [notes[notesUsed]];
        notesUsed := notesUsed + 1;
      } else {
        finalSequence := finalSequence + [beat];
      }
      i := i + 1;
    }
  }

  /** The global NoteTypes list and the random engine that shuffles it. */
  class NoteGenerator {
    var noteTypes: seq<string>

    predicate Valid()
      reads this
    {
      IsNoteTypes(noteTypes)
    }

    constructor ()
      ensures Valid() && noteTypes == InitialNoteTypes
    {
      noteTypes := InitialNoteTypes;
    }

    /** FindSequence: a depth-first search that appends fragments, in
        non-decreasing list order starting at currentNote, until the phrase
        has 16 steps and numberOfNotes fragments.  On success it returns
        the filled phrase and the count numberOfNotes; otherwise it gives
        back the phrase and the count it was called with.  It fails only if
        no layout exists.  `picks` names the fragments it chose. */
    method FindSequence(phrase: string, numberOfNotes: int, accumulatedNotes: int, currentNote: nat)
      returns (result: string, accumulated: int, ghost picks: seq<nat>)
      requires Fragments(noteTypes) && |phrase| <= BarLength
      ensures var success := |result| == BarLength && accumulated == numberOfNotes;
              (success <==> Fits(noteTypes, |phrase|, numberOfNotes - accumulatedNotes, currentNote)) &&
              (!success ==> result == phrase && accumulated == accumulatedNotes) &&
              (success ==> PicksFrom(noteTypes, picks, currentNote) &&
                           |picks| == numberOfNotes - accumulatedNotes &&
                           result == phrase + Concat(noteTypes, picks))
      decreases BarLength - |phrase|
    {
      if |phrase| >= BarLength || accumulatedNotes >= numberOfNotes {
        return phrase, accumulatedNotes, [];
      }
      var current := phrase;
      accumulated := accumulatedNotes;
      var i := currentNote;
      while i < |noteTypes|
        invariant currentNote <= i
        invariant current == phrase && accumulated == accumulatedNotes
        invariant FitsAt(noteTypes, |phrase|, numberOfNotes - accumulatedNotes, currentNote)
                  <==> FitsAt(noteTypes, |phrase|, numberOfNotes - accumulatedNotes, i)
      {
        var fragment := noteTypes[i];
        if |fragment| + |current| > BarLength {
          i := i + 1;
          continue;
        }
        current := current + fragment;
        accumulated := accumulated + 1;
        var deeper, more;
        ghost var rest;
        deeper, more, rest := FindSequence(current, numberOfNotes, accumulated, i);
        current, accumulated := deeper, more;
        if |current| == BarLength && numberOfNotes == accumulated {
          ConcatAppend(noteTypes, rest, i);
          return current, accumulated, [i] + rest;
        }
        current := current[..|current| - |fragment|];
        accumulated := accumulated - 1;
        i := i + 1;
      }
      return current, accumulated, [];
    }

    /** std::shuffle over NoteTypes, as the Fisher-Yates pass it performs,
        with draws[m] standing for the engine's m-th draw. */
    method Shuffle(draws: seq<nat>)
      requires |draws| >= |noteTypes|
      modifies this
      ensures multiset(noteTypes) == multiset(old(noteTypes))
    {
      var i := |noteTypes| - 1;
      while i > 0
        invariant -1 <= i < |noteTypes| || noteTypes == []
        invariant multiset(noteTypes) == multiset(old(noteTypes))
        invariant |noteTypes| == |old(noteTypes)|
      {
        var j := draws[i] % (i + 1);
        var tmp := noteTypes[i];
        noteTypes := noteTypes[i := noteTypes[j]][j := tmp];
        i := i - 1;
      }
    }

    /** GenerateBeatSequence: the fixed bars for 1, 2 and 16 hits; any other
        count shuffles NoteTypes and searches.  For 2 to 16 hits the bar has
        16 steps holding exactly that many hits; a count the search cannot
        pack gives the empty string. */
    method GenerateBeatSequence(numberOfNotes: int, draws: seq<nat>) returns (beats: string)
      requires Valid() && |draws| >= |noteTypes|
      modifies this
      ensures Valid()
      ensures numberOfNotes == 1 ==> beats == "x..............."
      ensures numberOfNotes == 2 ==> beats == "x.......x......."
      ensures numberOfNotes == 16 ==> beats == "xxxxxxxxxxxxxxxx"
      ensures 1 <= numberOfNotes <= BarLength ==> |beats| == BarLength && CountHits(beats) == numberOfNotes
      ensures (numberOfNotes < 1 || numberOfNotes > BarLength) ==> beats == ""
      ensures BeatsOnly(beats)
    {
      if numberOfNotes == 1 {
        OneHitBar();
        FixedBarBeats();
        beats := "x...............";
      } else if numberOfNotes == 2 {
        TwoHitBar();
        FixedBarBeats();
        beats := "x.......x.......";
      } else if numberOfNotes == 16 {
        FullBar();
        FixedBarBeats();
        beats := "xxxxxxxxxxxxxxxx";
      } else {
        beats := PackBar(numberOfNotes, draws);
      }
    }

    /** The general case of GenerateBeatSequence: shuffle the fragment
        types, then search from an empty phrase. */
    method PackBar(numberOfNotes: int, draws: seq<nat>) returns (beats: string)
      requires Valid() && |draws| >= |noteTypes|
      modifies this
      ensures Valid()
      ensures 2 <= numberOfNotes <= BarLength ==> |beats| == BarLength && CountHits(beats) == numberOfNotes
      ensures (numberOfNotes < 2 || numberOfNotes > BarLength) ==> beats == ""
      ensures BeatsOnly(beats)
    {
      Shuffle(draws);
      NoteTypesAreFragments(noteTypes);
      var accumulated;
      ghost var picks;
      beats, accumulated, picks := FindSequence("", numberOfNotes, 0, 0);
      assert |""| == 0 && numberOfNotes - 0 == numberOfNotes;
      SearchFromEmpty(noteTypes, numberOfNotes, beats, accumulated, picks);
    }

    /** GetNewPhrase: the notes and the beat bar for numberOfNotes hits,
        merged.  `notes` and `beatSequence` are the two strings it merges:
        for 1 to 16 hits the phrase is a 16-step bar whose k-th hit is the
        k-th generated note and whose other steps are rests. */
    method GetNewPhrase(numberOfNotes: int, firstNote: char, rands: seq<nat>, draws: seq<nat>)
      returns (finalSequence: string, ghost notes: string, ghost beatSequence: string)
      requires Valid() && numberOfNotes >= 1
      requires |rands| >= numberOfNotes - 1 && |draws| >= |noteTypes|
      modifies this
      ensures Valid()
      ensures IsPhraseOf(finalSequence, notes, beatSequence, numberOfNotes, firstNote, rands)
      ensures numberOfNotes <= BarLength ==> |finalSequence| == BarLength
      ensures numberOfNotes > BarLength ==> finalSequence == ""
      ensures firstNote in Naturals ==>
                forall i :: 0 <= i < |finalSequence| ==>
                  (finalSequence[i] == '.' || finalSequence[i] in Naturals) &&
                  (finalSequence[i] == '.' <==> beatSequence[i] == '.')
    {
      var generated := GenerateNotes(firstNote, numberOfNotes, rands);
      var beats := GenerateBeatSequence(numberOfNotes, draws);
      if numberOfNotes > BarLength {
        assert beats == "";
      }
      finalSequence := MergePhrase(beats, generated);
      if firstNote in Naturals {
        MergedLetters(beats, generated, finalSequence);
      }
      notes, beatSequence := generated, beats;
    }
  }

  /** What GetNewPhrase composes for `numberOfNotes` hits from `firstNote`
      with the rand() values `rands`: the generated notes, a bar of hits
      and rests with one hit per note (empty when more than 16 are asked
      for), and the phrase merging the two. */
  predicate IsPhraseOf(phrase: string, notes: string, beats: string, numberOfNotes: int, firstNote: char,
                       rands: seq<nat>)
  {
    |notes| == numberOfNotes && IsNoteChain(notes, firstNote, rands) && BeatsOnly(beats) &&
    (numberOfNotes <= BarLength ==> |beats| == BarLength && CountHits(beats) == numberOfNotes) &&
    (numberOfNotes > BarLength ==> beats == "") &&
    IsMerge(beats, notes, phrase)
  }

  /** The three bars GenerateBeatSequence writes out: 16 steps with 1, 2
      and 16 hits, and nothing but hits and rests. */
  lemma OneHitBar()
    ensures |"x..............."| == BarLength && CountHits("x...............") == 1
  {
  }

  lemma TwoHitBar()
    ensures |"x.......x......."| == BarLength && CountHits("x.......x.......") == 2
  {
  }

  lemma FullBar()
    ensures |"xxxxxxxxxxxxxxxx"| == BarLength && CountHits("xxxxxxxxxxxxxxxx") == 16
  {
  }

  lemma FixedBarBeats()
    ensures BeatsOnly("x...............") && BeatsOnly("x.......x.......") && BeatsOnly("xxxxxxxxxxxxxxxx")
  {
  }

  /** A string of hits and rests only. */
  predicate BeatsOnly(s: string) {
    forall j :: 0 <= j < |s| ==> s[j] == 'x' || s[j] == '.'
  }

  lemma {:induction false} ConcatBeats(types: seq<string>, picks: seq<nat>)
    requires Fragments(types)
    requires forall j :: 0 <= j < |picks| ==> picks[j] < |types|
    ensures BeatsOnly(Concat(types, picks))
  {
    if picks != [] {
      ConcatBeats(types, picks[1..]);
      var head := types[picks[0]];
      var tail := Concat(types, picks[1..]);
      assert forall j :: 0 <= j < |head| ==> (head + tail)[j] == head[j];
      assert forall j :: |head| <= j < |head| + |tail| ==> (head + tail)[j] == tail[j - |head|];
    }
  }

  /** What a search from the empty phrase gives, for any order of the
      fragment types: a full bar with one hit per requested note when 2 to
      16 notes are asked for, and the empty string otherwise. */
  lemma SearchFromEmpty(types: seq<string>, n: int, beats: string, accumulated: int, picks: seq<nat>)
    requires IsNoteTypes(types)
    requires var success := |beats| == BarLength && accumulated == n;
             (success <==> Fits(types, 0, n, 0)) &&
             (!success ==> beats == "" && accumulated == 0) &&
             (success ==> PicksFrom(types, picks, 0) && |picks| == n && beats == Concat(types, picks))
    ensures 2 <= n <= BarLength ==> |beats| == BarLength && CountHits(beats) == n
    ensures (n < 2 || n > BarLength) ==> beats == ""
    ensures BeatsOnly(beats)
  {
    NoteTypesAreFragments(types);
    if |beats| == BarLength && accumulated == n {
      ConcatShape(types, picks);
      ConcatBeats(types, picks);
      FitsBound(types, 0, n, 0);
      if n == 1 {
        NoSingleFragmentBar(types);
      }
    } else if 2 <= n <= BarLength {
      EveryCountFits(types, n);
    }
  }

  /** Each fragment takes at least one step, so a fit needs at least as many
      free steps as fragments. */
  lemma {:induction false} FitsBound(types: seq<string>, len: int, k: int, from: nat)
    requires Fragments(types) && Fits(types, len, k, from)
    ensures len + k <= BarLength
    decreases BarLength - len, 1, 0
  {
    if !(len >= BarLength || k <= 0) {
      FitsAtBound(types, len, k, from);
    }
  }

  lemma {:induction false} FitsAtBound(types: seq<string>, len: int, k: int, i: nat)
    requires Fragments(types) && len < BarLength && FitsAt(types, len, k, i)
    ensures len + k <= BarLength
    decreases BarLength - len, 0, |types| - i
  {
    if len + |types[i]| <= BarLength && Fits(types, len + |types[i]|, k - 1, i) {
      FitsBound(types, len + |types[i]|, k - 1, i);
    } else {
      FitsAtBound(types, len, k, i + 1);
    }
  }
}
