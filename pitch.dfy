/** Pitch tables of the synthesizer: the note-letter to semitone maps and the
    negative-harmony transform used by the "inverted" instruments. */
module Pitch {

  /** The twelve pitch-class letters in scale order.  Upper case is the
      natural note, lower case the sharp above it; position 0 is A. */
  const Letters: string := "AaBCcDdEFfGg"

  /** Note letter to semitone offset from A. */
  const NoteToScaleMap: map<char, int> :=
    map['A' := 0, 'a' := 1, 'B' := 2, 'C' := 3, 'c' := 4, 'D' := 5,
        'd' := 6, 'E' := 7, 'F' := 8, 'f' := 9, 'G' := 10, 'g' := 11]

  /** Semitone offset from A to note letter (the source spells it SacleToNoteMap). */
  const ScaleToNoteMap: map<int, char> :=
    map[0 := 'A', 1 := 'a', 2 := 'B', 3 := 'C', 4 := 'c', 5 := 'D',
        6 := 'd', 7 := 'E', 8 := 'F', 9 := 'f', 10 := 'G', 11 := 'g']

  predicate IsNoteLetter(c: char) {
    c in NoteToScaleMap
  }

  /** The semitone of a note letter: its position in Letters. */
  function NoteToScale(c: char): (r: int)
    requires IsNoteLetter(c)
    ensures 0 <= r < 12 && Letters[r] == c
  {
    NoteToScaleMap[c]
  }

  /** The letter of a semitone in 0..11. */
  function ScaleToNote(k: int): (c: char)
    requires 0 <= k < 12
    ensures c == Letters[k] && IsNoteLetter(c)
  {
    ScaleToNoteMap[k]
  }

  /** The two maps are inverse bijections between the twelve letters and 0..11. */
  lemma ScaleMapsInverse()
    ensures forall k :: k in ScaleToNoteMap <==> 0 <= k < 12
    ensures forall c :: c in NoteToScaleMap <==> c in Letters
    ensures forall c :: c in NoteToScaleMap ==>
              NoteToScaleMap[c] in ScaleToNoteMap && ScaleToNoteMap[NoteToScaleMap[c]] == c
    ensures forall k :: k in ScaleToNoteMap ==>
              ScaleToNoteMap[k] in NoteToScaleMap && NoteToScaleMap[ScaleToNoteMap[k]] == k
  {
    forall c | c in NoteToScaleMap
      ensures NoteToScaleMap[c] in ScaleToNoteMap && ScaleToNoteMap[NoteToScaleMap[c]] == c
    {
    }
    forall k | k in ScaleToNoteMap
      ensures ScaleToNoteMap[k] in NoteToScaleMap && NoteToScaleMap[ScaleToNoteMap[k]] == k
    {
    }
  }

  /** C++ `a % 12` on int: the remainder truncated toward zero, so it takes
      the sign of the dividend (Dafny's own `%` is Euclidean). */
  function CppRem12(a: int): (r: int)
    ensures -12 < r < 12
    ensures (a - r) % 12 == 0
    ensures a >= 0 ==> r >= 0
    ensures a < 0 ==> r <= 0
  {
    if a >= 0 then a % 12 else -((-a) % 12)
  }

  lemma ShiftByMultiple(a: int, q: int)
    ensures (a + 12 * q) % 12 == a % 12
  {
  }

  /** The pitch-class reflection of the A minor key.  In C++ `scaleNote % 12`
      is negative for a negative scaleNote, but `13 - basicNote` is then still
      positive, so the result is the Euclidean (1 - scaleNote) mod 12. */
  function NegativeHarmonyTransformation(scaleNote: int): (r: int)
    ensures 0 <= r < 12
    ensures r == (1 - scaleNote) % 12
  {
    var basicNote := CppRem12(scaleNote);
    var q := (scaleNote - basicNote) / 12;
    assert scaleNote - basicNote == 12 * q;
    ShiftByMultiple(1 - scaleNote, q);
    CppRem12(13 - basicNote)
  }

  /** Applied twice, the transform gives back the pitch class of the input;
      on 0..11 it is an involution. */
  lemma NegativeHarmonyInvolution(x: int)
    ensures NegativeHarmonyTransformation(NegativeHarmonyTransformation(x)) == x % 12
    ensures 0 <= x < 12 ==> NegativeHarmonyTransformation(NegativeHarmonyTransformation(x)) == x
  {
    var y := NegativeHarmonyTransformation(x);
    var q := (1 - x - y) / 12;
    assert 1 - x - y == 12 * q;
    ShiftByMultiple(x, q);
    assert 1 - y == x + 12 * q;
  }

  /** The transform only depends on the pitch class of its input. */
  lemma NegativeHarmonyOfPitchClass(x: int, k: int)
    ensures NegativeHarmonyTransformation(x + 12 * k) == NegativeHarmonyTransformation(x)
  {
    ShiftByMultiple(1 - x, -k);
    assert 1 - (x + 12 * k) == (1 - x) + 12 * (-k);
  }
}
