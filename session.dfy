/** The end-of-session report: per bar the sensor mood and the chord change
    are recorded, and at the end the history is summed up into counts, an
    average and two clauses of the report text. */
module Session {
  import opened MoodMachine

  /** Evalautor::EvaluationMetrics: what one bar left in the history. */
  datatype EvaluationMetrics = EvaluationMetrics(sensorMood: int, change: ChordChange)

  /** sensorAverage is an unsigned int: its arithmetic is modulo 2^32. */
  const UintModulus: int := 0x1_0000_0000

  /** The five movement bands, from below 20 to 80 and above. */
  datatype Band = VeryLow | Low | Balanced | High | VeryHigh

  function BandOf(mood: int): (b: Band)
    ensures b == VeryLow <==> mood < 20
    ensures b == VeryHigh <==> mood >= 80
    ensures b == Low <==> 20 <= mood < 40
    ensures b == Balanced <==> 40 <= mood < 60
    ensures b == High <==> 60 <= mood < 80
  {
    if mood < 20 then VeryLow
    else if mood < 40 then Low
    else if mood < 60 then Balanced
    else if mood < 80 then High
    else VeryHigh
  }

  /** How many of the first n bars fall in a band (lowN to highN). */
  function InBandUpTo(history: seq<EvaluationMetrics>, b: Band, n: nat): nat
    requires n <= |history|
  {
    if n == 0 then 0 else InBandUpTo(history, b, n - 1) + (if BandOf(history[n - 1].sensorMood) == b then 1 else 0)
  }

  /** How many of the first n bars made a given chord change. */
  function WithChangeUpTo(history: seq<EvaluationMetrics>, c: ChordChange, n: nat): nat
    requires n <= |history|
  {
    if n == 0 then 0 else WithChangeUpTo(history, c, n - 1) + (if history[n - 1].change == c then 1 else 0)
  }

  /** The exact sum of the first n recorded moods. */
  function MoodSumUpTo(history: seq<EvaluationMetrics>, n: nat): int
    requires n <= |history|
  {
    if n == 0 then 0 else MoodSumUpTo(history, n - 1) + history[n - 1].sensorMood
  }

  function InBand(history: seq<EvaluationMetrics>, b: Band): nat {
    InBandUpTo(history, b, |history|)
  }

  function WithChange(history: seq<EvaluationMetrics>, c: ChordChange): nat {
    WithChangeUpTo(history, c, |history|)
  }

  function MoodSum(history: seq<EvaluationMetrics>): int {
    MoodSumUpTo(history, |history|)
  }

  /** numberOfSongLoops: an empty history counts as one loop. */
  function Loops(history: seq<EvaluationMetrics>): (n: nat)
    ensures n >= 1
  {
    if history == [] then 1 else |history|
  }

  datatype BandCounts = BandCounts(low: nat, midLow: nat, mid: nat, midHigh: nat, high: nat)
  {
    function Of(b: Band): nat {
      match b
      case VeryLow => low
      case Low => midLow
      case Balanced => mid
      case High => midHigh
      case VeryHigh => high
    }
  }

  /** The band that holds more bars than each of the four others, looked for
      from the top; without one the report says "very low". */
  function Majority(c: BandCounts): Band {
    if c.high > c.midHigh && c.high > c.mid && c.high > c.midLow && c.high > c.low then VeryHigh
    else if c.midHigh > c.high && c.midHigh > c.mid && c.midHigh > c.midLow && c.midHigh > c.low then High
    else if c.mid > c.high && c.mid > c.midHigh && c.mid > c.midLow && c.mid > c.low then Balanced
    else if c.midLow > c.high && c.midLow > c.midHigh && c.midLow > c.mid && c.midLow > c.low then Low
    else VeryLow
  }

  predicate Beats(c: BandCounts, b: Band) {
    forall other: Band :: other != b ==> c.Of(b) > c.Of(other)
  }

  /** A band that beats every other is the majority, and a majority other
      than "very low" beats every other band. */
  lemma MajorityMeansMost(c: BandCounts, b: Band)
    ensures Beats(c, b) ==> Majority(c) == b
    ensures Majority(c) == b && b != VeryLow ==> Beats(c, b)
  {
    if Beats(c, b) {
      assert c.Of(b) > c.Of(VeryLow) || b == VeryLow;
      assert c.Of(b) > c.Of(Low) || b == Low;
      assert c.Of(b) > c.Of(Balanced) || b == Balanced;
      assert c.Of(b) > c.Of(High) || b == High;
      assert c.Of(b) > c.Of(VeryHigh) || b == VeryHigh;
    }
  }

  /** With a tie at the top no band beats the others: the report falls
      back to "very low". */
  lemma TieReadsVeryLow(c: BandCounts, b1: Band, b2: Band)
    requires b1 != b2 && c.Of(b1) == c.Of(b2)
    requires forall other: Band :: c.Of(other) <= c.Of(b1)
    ensures Majority(c) == VeryLow
  {
    MajorityMeansMost(c, Majority(c));
  }

  function OverallClause(b: Band): string {
    match b
    case VeryLow => "Very low movement over all, "
    case Low => "Low movement over all, "
    case Balanced => "Balanced movement over all, "
    case High => "High movement over all, "
    case VeryHigh => "Very high movement over all, "
  }

  function MajorityClause(b: Band): string {
    match b
    case VeryHigh => "spent the majority of time with very high movement, "
    case High => "spent the majority of time with high movement, "
    case Balanced => "spent the majority of time with balanced movement, "
    case Low => "spent the majority of time with low movement, "
    case VeryLow => "spent the majority of time with very low movement, "
  }

  /** What EvalauteSession works out.  The percentages are exact reals. */
  datatype Evaluation = Evaluation(loops: nat, inversions: nat, diminished: nat, counts: BandCounts,
                                   average: nat, inversionPercent: real, diminishedPercent: real,
                                   overall: string, majority: string)

  lemma ModAdd(a: int, b: int)
    ensures (a % UintModulus + b) % UintModulus == (a + b) % UintModulus
  {
    var q := a / UintModulus;
    assert a == q * UintModulus + a % UintModulus;
    assert a + b == (a % UintModulus + b) + q * UintModulus;
    ModMultiple(a % UintModulus + b, q);
  }

  lemma ModMultiple(x: int, q: int)
    ensures (x + q * UintModulus) % UintModulus == x % UintModulus
  {
    var r := x % UintModulus;
    var y := x / UintModulus;
    assert x == y * UintModulus + r;
    assert x + q * UintModulus == (y + q) * UintModulus + r;
  }

  /** Evalautor::EvalauteSession: one pass over the history counting chord
      changes (an inversion also counts as a diminished bar, the switch
      falls through) and bands, summing the moods in unsigned arithmetic;
      then the average, the percentages and the two clauses. */
  method EvaluateSession(history: seq<EvaluationMetrics>) returns (e: Evaluation)
    ensures e.loops == Loops(history)
    ensures e.inversions == WithChange(history, Inverted)
    ensures e.diminished == WithChange(history, Inverted) + WithChange(history, Diminished)
    ensures forall b: Band :: e.counts.Of(b) == InBand(history, b)
    ensures e.average == (MoodSum(history) % UintModulus) / Loops(history)
    ensures e.inversionPercent == (e.inversions as real / e.loops as real) * 100.0
    ensures e.diminishedPercent == (e.diminished as real / e.loops as real) * 100.0
    ensures e.overall == OverallClause(BandOf(e.average))
    ensures e.majority == MajorityClause(Majority(e.counts))
  {
    var numberOfSongLoops := if |history| == 0 then 1 else |history|;
    var numberOfInversions := 0;
    var numberOfDiminished := 0;
    var sensorAverage := 0;
    var highN, midHighN, midN, midLowN, lowN := 0, 0, 0, 0, 0;
    for i := 0 to |history|
      invariant numberOfInversions == WithChangeUpTo(history, Inverted, i)
      invariant numberOfDiminished == WithChangeUpTo(history, Inverted, i) + WithChangeUpTo(history, Diminished, i)
      invariant lowN == InBandUpTo(history, VeryLow, i) && midLowN == InBandUpTo(history, Low, i)
      invariant midN == InBandUpTo(history, Balanced, i) && midHighN == InBandUpTo(history, High, i)
      invariant highN == InBandUpTo(history, VeryHigh, i)
      invariant sensorAverage == MoodSumUpTo(history, i) % UintModulus
    {
      var output := history[i];
      match output.change {
        case Inverted =>
          numberOfInversions := numberOfInversions + 1;
          numberOfDiminished := numberOfDiminished + 1;
        case Diminished =>
          numberOfDiminished := numberOfDiminished + 1;
        case Normal =>
      }
      if output.sensorMood < 20 {
        lowN := lowN + 1;
      } else if output.sensorMood < 40 {
        midLowN := midLowN + 1;
      } else if output.sensorMood < 60 {
        midN := midN + 1;
      } else if output.sensorMood < 80 {
        midHighN := midHighN + 1;
      } else {
        highN := highN + 1;
      }
      ModAdd(MoodSumUpTo(history, i), output.sensorMood);
      sensorAverage := (sensorAverage + output.sensorMood) % UintModulus;
    }
    sensorAverage := sensorAverage / numberOfSongLoops;
    var counts := BandCounts(lowN, midLowN, midN, midHighN, highN);
    e := Evaluation(numberOfSongLoops, numberOfInversions, numberOfDiminished, counts, sensorAverage,
                    (numberOfInversions as real / numberOfSongLoops as real) * 100.0,
                    (numberOfDiminished as real / numberOfSongLoops as real) * 100.0,
                    OverallClause(BandOf(sensorAverage)), MajorityClause(Majority(counts)));
  }

  /** Every bar falls in exactly one band. */
  lemma BandsPartition(history: seq<EvaluationMetrics>)
    ensures InBand(history, VeryLow) + InBand(history, Low) + InBand(history, Balanced) +
            InBand(history, High) + InBand(history, VeryHigh) == |history|
  {
    BandsPartitionUpTo(history, |history|);
  }

  lemma {:induction false} BandsPartitionUpTo(history: seq<EvaluationMetrics>, n: nat)
    requires n <= |history|
    ensures InBandUpTo(history, VeryLow, n) + InBandUpTo(history, Low, n) + InBandUpTo(history, Balanced, n) +
            InBandUpTo(history, High, n) + InBandUpTo(history, VeryHigh, n) == n
  {
    if n > 0 {
      BandsPartitionUpTo(history, n - 1);
    }
  }

  /** Inversions and diminished bars together are at most the bars. */
  lemma ChangesBounded(history: seq<EvaluationMetrics>)
    ensures WithChange(history, Inverted) + WithChange(history, Diminished) <= |history|
  {
    ChangesBoundedUpTo(history, |history|);
  }

  lemma {:induction false} ChangesBoundedUpTo(history: seq<EvaluationMetrics>, n: nat)
    requires n <= |history|
    ensures WithChangeUpTo(history, Inverted, n) + WithChangeUpTo(history, Diminished, n) <= n
  {
    if n > 0 {
      ChangesBoundedUpTo(history, n - 1);
    }
  }

  /** Moods in 0..100 sum to at most 100 per bar. */
  lemma {:induction false} MoodSumBounds(history: seq<EvaluationMetrics>, n: nat)
    requires n <= |history|
    requires forall i :: 0 <= i < |history| ==> 0 <= history[i].sensorMood <= 100
    ensures 0 <= MoodSumUpTo(history, n) <= 100 * n
  {
    if n > 0 {
      MoodSumBounds(history, n - 1);
    }
  }

  /** For moods in 0..100 and a history shorter than 2^25 bars the unsigned
      sum does not wrap: the average is the plain integer mean, at most 100. */
  lemma AverageWithoutWrap(history: seq<EvaluationMetrics>)
    requires forall i :: 0 <= i < |history| ==> 0 <= history[i].sensorMood <= 100
    requires |history| < 0x200_0000
    ensures (MoodSum(history) % UintModulus) / Loops(history) == MoodSum(history) / Loops(history)
    ensures MoodSum(history) / Loops(history) <= 100
  {
    MoodSumBounds(history, |history|);
    assert MoodSum(history) < UintModulus;
    var n := Loops(history);
    assert MoodSum(history) <= 100 * n;
    DivBound(MoodSum(history), n);
  }

  lemma DivBound(s: int, n: int)
    requires n >= 1 && 0 <= s <= 100 * n
    ensures s / n <= 100
  {
    var q := s / n;
    assert q * n <= s;
    assert (q - 100) * n <= 0;
    FactorSign(q - 100, n);
  }

  lemma FactorSign(a: int, n: int)
    requires n >= 1 && a * n <= 0
    ensures a <= 0
  {
  }

  /** A negative mood wraps the unsigned sum around: a single bar at -5
      is reported as very high movement. */
  lemma NegativeMoodReadsVeryHigh()
    ensures (MoodSum([EvaluationMetrics(-5, Normal)]) % UintModulus) / Loops([EvaluationMetrics(-5, Normal)]) == UintModulus - 5
    ensures OverallClause(BandOf(UintModulus - 5)) == "Very high movement over all, "
  {
    var h := [EvaluationMetrics(-5, Normal)];
    assert MoodSumUpTo(h, 1) == -5;
  }

  /** An empty session counts one loop, averages 0 and has no majority. */
  lemma EmptySession()
    ensures Loops([]) == 1 && MoodSum([]) == 0
    ensures Majority(BandCounts(InBand([], VeryLow), InBand([], Low), InBand([], Balanced),
                                InBand([], High), InBand([], VeryHigh))) == VeryLow
    ensures OverallClause(BandOf(0)) == "Very low movement over all, "
  {
  }
}
