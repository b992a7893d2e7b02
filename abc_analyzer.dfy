// Educational quality analysis of a melody written in ABC notation
// (lib/abc-analyzer.ts): leaps, chromatic density, repeated four-note
// windows, the tempo field, a difficulty band, and the playability and
// learning-value scores that decide the quality gate.
//
// The abcjs parse (notes as MIDI numbers and the bar count) and the
// instrument tables (comfortable range, leap and tempo coefficients) are
// parameters: they are code outside this model.

module AbcAnalyzer {
  import opened Common
  import opened Text

  function Abs(x: int): (r: nat)
    ensures r == x || r == -x
  {
    if x < 0 then -x else x
  }

  /** |n[i+1] - n[i]| for each pair of consecutive notes. */
  function Intervals(notes: seq<int>): (r: seq<int>)
    ensures |notes| < 2 ==> r == []
    ensures |notes| >= 2 ==> |r| == |notes| - 1
    ensures forall i {:trigger r[i]} :: 0 <= i < |r| ==> r[i] == Abs(notes[i + 1] - notes[i])
  {
    if |notes| < 2 then [] else seq(|notes| - 1, i requires 0 <= i < |notes| - 1 => Abs(notes[i + 1] - notes[i]))
  }

  function IsLeap(d: int): bool { d > 0 }

  function IsSemitone(d: int): bool { d == 1 }

  // ----- leaps -----

  /** calculateLeaps: the non-zero consecutive intervals, in order. */
  method CalculateLeaps(notes: seq<int>) returns (leaps: seq<int>)
    ensures leaps == Filter(Intervals(notes), IsLeap)
  {
    ghost var steps := Intervals(notes);
    leaps := [];
    if |notes| < 2 {
      return;
    }
    var i := 1;
    while i < |notes|
      invariant 1 <= i <= |notes|
      invariant leaps == Filter(steps[..i - 1], IsLeap)
    {
      var leap := Abs(notes[i] - notes[i - 1]);
      assert steps[i - 1] == leap;
      FilterPrefixStep(steps, i - 1, IsLeap);
      if leap > 0 {
        leaps := leaps + [leap];
      }
      i := i + 1;
    }
    assert steps[..i - 1] == steps;
  }

  /** A melody that never changes pitch has no leaps. */
  lemma {:induction false} RepeatedPitchHasNoLeaps(notes: seq<int>)
    requires forall i :: 0 <= i < |notes| ==> notes[i] == notes[0]
    ensures Filter(Intervals(notes), IsLeap) == []
  {
    var steps := Intervals(notes);
    assert forall d :: d in steps ==> !IsLeap(d);
    CountWhereZero(steps, IsLeap);
  }

  // ----- chromatic density -----

  /** The share of consecutive intervals that are a single semitone; 0 below two notes. */
  function ChromaticDensity(notes: seq<int>): (d: real)
    ensures 0.0 <= d <= 1.0
    ensures |notes| < 2 ==> d == 0.0
  {
    if |notes| < 2 then 0.0
    else
      var steps := CountWhere(Intervals(notes), IsSemitone);
      RatioInUnit(steps, |notes| - 1);
      steps as real / (|notes| - 1) as real
  }

  /** calculateChromaticDensity: count the semitone steps in one pass. */
  method CalculateChromaticDensity(notes: seq<int>) returns (density: real)
    ensures density == ChromaticDensity(notes)
  {
    if |notes| < 2 {
      return 0.0;
    }
    ghost var steps := Intervals(notes);
    var chromaticSteps := 0;
    var i := 1;
    while i < |notes|
      invariant 1 <= i <= |notes|
      invariant chromaticSteps == CountWhere(steps[..i - 1], IsSemitone)
    {
      var interval := Abs(notes[i] - notes[i - 1]);
      CountWherePrefixStep(steps, i - 1, IsSemitone);
      if interval == 1 {
        chromaticSteps := chromaticSteps + 1;
      }
      i := i + 1;
    }
    assert steps[..i - 1] == steps;
    density := chromaticSteps as real / (|notes| - 1) as real;
  }

  /** Density is 1 exactly when every step moves by one semitone. */
  lemma {:induction false} ChromaticDensityOneIff(notes: seq<int>)
    requires |notes| >= 2
    ensures ChromaticDensity(notes) == 1.0 <==> forall i :: 0 <= i < |Intervals(notes)| ==> Intervals(notes)[i] == 1
  {
    var steps := Intervals(notes);
    RatioInUnit(CountWhere(steps, IsSemitone), |notes| - 1);
    CountWhereAll(steps, IsSemitone);
  }

  /** Density is 0 exactly when no step moves by one semitone. */
  lemma {:induction false} ChromaticDensityZeroIff(notes: seq<int>)
    requires |notes| >= 2
    ensures ChromaticDensity(notes) == 0.0 <==> forall i :: 0 <= i < |Intervals(notes)| ==> Intervals(notes)[i] != 1
  {
    var steps := Intervals(notes);
    var c := CountWhere(steps, IsSemitone);
    RatioInUnit(c, |notes| - 1);
    assert ChromaticDensity(notes) == 0.0 <==> c == 0;
    SemitoneCountZeroIff(steps);
  }

  lemma {:induction false} SemitoneCountZeroIff(steps: seq<int>)
    ensures CountWhere(steps, IsSemitone) == 0 <==> forall i :: 0 <= i < |steps| ==> steps[i] != 1
  {
    CountWhereZero(steps, IsSemitone);
  }

  // ----- repeated four-note windows -----

  /** Every run of four consecutive notes, in order. */
  function Windows(notes: seq<int>): (w: seq<seq<int>>)
    ensures |notes| < 4 ==> w == []
    ensures |notes| >= 4 ==> |w| == |notes| - 3
    ensures forall i {:trigger w[i]} :: 0 <= i < |w| ==> w[i] == notes[i..i + 4]
  {
    if |notes| < 4 then [] else seq(|notes| - 3, i requires 0 <= i < |notes| - 3 => notes[i..i + 4])
  }

  /** The distinct windows that occur at least twice. */
  function RepeatedWindows(w: seq<seq<int>>): set<seq<int>>
  {
    set x | x in w && multiset(w)[x] >= 2
  }

  function Distinct(w: seq<seq<int>>): set<seq<int>>
  {
    set x | x in w
  }

  /** How many window positions hold a window that occurs at least twice. */
  function RepeatedOccurrences(w: seq<seq<int>>): nat
  {
    CountWhere(w, x => multiset(w)[x] >= 2)
  }

  datatype Repetition = Repetition(repetitionRatio: real, sequenceCount: nat)

  /**
   * The repetition measure: the number of distinct windows seen at least
   * twice, and their total occurrences over the number of distinct windows.
   */
  function RepetitionOf(notes: seq<int>): (r: Repetition)
    ensures r.repetitionRatio >= 0.0
  {
    if |notes| < 4 then Repetition(0.0, 0)
    else
      var w := Windows(notes);
      Repetition(RepeatedOccurrences(w) as real / Max(|Distinct(w)|, 1) as real, |RepeatedWindows(w)|)
  }

  /** `sequences` tallies the windows `w` and `order` lists its keys once each, in insertion order. */
  ghost predicate Tallied(w: seq<seq<int>>, sequences: map<seq<int>, nat>, order: seq<seq<int>>)
  {
    sequences.Keys == Distinct(w)
    && (forall x :: x in sequences ==> sequences[x] == multiset(w)[x])
    && NoDuplicates(order)
    && (forall x :: x in order <==> x in sequences)
  }

  /** Recording one more window keeps the tally exact. */
  lemma {:induction false} TallyStep(w: seq<seq<int>>, x: seq<int>, sequences: map<seq<int>, nat>, order: seq<seq<int>>)
    requires Tallied(w, sequences, order)
    ensures Tallied(w + [x], sequences[x := (if x in sequences then sequences[x] else 0) + 1],
                    if x in sequences then order else order + [x])
  {
    forall y ensures multiset(w + [x])[y] == multiset(w)[y] + (if y == x then 1 else 0) {
      MultiplicityOfAppend(w, x, y, 1);
    }
    assert Distinct(w + [x]) == Distinct(w) + {x};
  }

  /** Tallying the window at position `i` extends the tally of the windows before it. */
  lemma {:induction false} TallyWindowStep(notes: seq<int>, i: nat, sequences: map<seq<int>, nat>, order: seq<seq<int>>)
    requires i + 4 <= |notes|
    requires Tallied(Windows(notes)[..i], sequences, order)
    ensures var window := notes[i..i + 4];
      Tallied(Windows(notes)[..i + 1], sequences[window := (if window in sequences then sequences[window] else 0) + 1],
              if window in sequences then order else order + [window])
  {
    var w := Windows(notes);
    assert w[..i + 1] == w[..i] + [notes[i..i + 4]];
    TallyStep(w[..i], notes[i..i + 4], sequences, order);
  }

  /** The first pass of analyzeRepetition: tally each window in a map, keeping its keys in insertion order. */
  method TallyWindows(notes: seq<int>) returns (sequences: map<seq<int>, nat>, order: seq<seq<int>>)
    requires |notes| >= 4
    ensures Tallied(Windows(notes), sequences, order)
  {
    sequences := map[];
    order := [];
    var i := 0;
    while i <= |notes| - 4
      invariant 0 <= i <= |notes| - 3
      invariant Tallied(Windows(notes)[..i], sequences, order)
    {
      var window := notes[i..i + 4];
      TallyWindowStep(notes, i, sequences, order);
      var count := if window in sequences then sequences[window] else 0;
      order := if window in sequences then order else order + [window];
      sequences := sequences[window := count + 1];
      i := i + 1;
    }
    assert Windows(notes)[..i] == Windows(notes);
  }

  /** The second pass: how many keys were seen at least twice, and their total count. */
  method TotalRepeated(sequences: map<seq<int>, nat>, order: seq<seq<int>>) returns (repeated: nat, total: int)
    requires forall k :: k in order ==> k in sequences
    ensures repeated == CountWhere(order, k => k in sequences && sequences[k] >= 2)
    ensures total == SumInt(order, k => if k in sequences && sequences[k] >= 2 then sequences[k] else 0)
  {
    var isRepeated := k => k in sequences && sequences[k] >= 2;
    var weight := k => if k in sequences && sequences[k] >= 2 then sequences[k] else 0;
    repeated, total := 0, 0;
    var j := 0;
    while j < |order|
      invariant 0 <= j <= |order|
      invariant repeated == CountWhere(order[..j], isRepeated)
      invariant total == SumInt(order[..j], weight)
    {
      var key := order[j];
      CountWherePrefixStep(order, j, isRepeated);
      SumIntPrefixStep(order, j, weight);
      if sequences[key] >= 2 {
        repeated := repeated + 1;
        total := total + sequences[key];
      }
      j := j + 1;
    }
    assert order[..j] == order;
  }

  /** analyzeRepetition: tally the windows, then total the repeated ones over the number of distinct windows. */
  method AnalyzeRepetition(notes: seq<int>) returns (r: Repetition)
    ensures r == RepetitionOf(notes)
  {
    if |notes| < 4 {
      return Repetition(0.0, 0);
    }
    var sequences, order := TallyWindows(notes);
    var repeated, total := TotalRepeated(sequences, order);
    RepeatedCountOfTally(Windows(notes), order, sequences, k => k in sequences && sequences[k] >= 2);
    RepeatedTotalOfTally(Windows(notes), order, sequences, k => if k in sequences && sequences[k] >= 2 then sequences[k] else 0);
    r := Repetition(total as real / Max(|sequences.Keys|, 1) as real, repeated);
  }

  /** Counting the repeated keys of a tally counts the distinct repeated windows. */
  lemma {:induction false} RepeatedCountOfTally(w: seq<seq<int>>, order: seq<seq<int>>, sequences: map<seq<int>, nat>,
                             isRepeated: seq<int> -> bool)
    requires Tallied(w, sequences, order)
    requires forall k :: isRepeated(k) == (k in sequences && sequences[k] >= 2)
    ensures CountWhere(order, isRepeated) == |RepeatedWindows(w)|
  {
    forall x ensures x in RepeatedWindows(w) <==> x in order && isRepeated(x) {
      assert x in order <==> x in sequences.Keys;
      assert x in Distinct(w) <==> x in w;
    }
    CountWhereDistinct(order, isRepeated, RepeatedWindows(w));
  }

  /** Summing the counts of the repeated keys of a tally counts the positions of repeated windows. */
  lemma {:induction false} RepeatedTotalOfTally(w: seq<seq<int>>, order: seq<seq<int>>, sequences: map<seq<int>, nat>,
                             weight: seq<int> -> int)
    requires Tallied(w, sequences, order)
    requires forall k :: weight(k) == if k in sequences && sequences[k] >= 2 then sequences[k] else 0
    ensures SumInt(order, weight) == RepeatedOccurrences(w)
  {
    var rep := x => multiset(w)[x] >= 2;
    var indicator := x => if multiset(w)[x] >= 2 then 1 else 0;
    CountWhereAsSum(w, rep, indicator);
    assert forall x :: x in w ==> x in Distinct(w);
    SumRegroup(w, order, indicator, weight);
  }

  /** No window position holds a repeated window exactly when no window repeats. */
  lemma {:induction false} RepeatedOccurrencesZeroIff(w: seq<seq<int>>)
    ensures RepeatedOccurrences(w) == 0 <==> RepeatedWindows(w) == {}
  {
    var rep := x => multiset(w)[x] >= 2;
    CountWhereZero(w, rep);
    if RepeatedWindows(w) != {} {
      var x :| x in RepeatedWindows(w);
      var i :| 0 <= i < |w| && w[i] == x;
      assert rep(w[i]);
    } else {
      forall i | 0 <= i < |w| ensures !rep(w[i]) {
        assert w[i] !in RepeatedWindows(w);
      }
    }
  }

  /** No window repeats exactly when the ratio is 0. */
  lemma {:induction false} NoRepetitionIffZeroRatio(notes: seq<int>)
    ensures RepetitionOf(notes).sequenceCount == 0 <==> RepetitionOf(notes).repetitionRatio == 0.0
  {
    if |notes| >= 4 {
      var w := Windows(notes);
      RepeatedOccurrencesZeroIff(w);
      QuotientZeroIff(RepeatedOccurrences(w), Max(|Distinct(w)|, 1));
    }
  }

  /**
   * The ratio is not bounded by 1: five equal notes give two equal windows,
   * one distinct window seen twice, so the ratio is 2.
   */
  lemma {:induction false} RepetitionRatioCanExceedOne()
    ensures RepetitionOf([60, 60, 60, 60, 60]).repetitionRatio == 2.0
  {
    var notes := [60, 60, 60, 60, 60];
    var w := Windows(notes);
    var x := [60, 60, 60, 60];
    assert |w| == 2 && w[0] == x && w[1] == x;
    assert w == [x, x];
    assert multiset(w)[x] == 2;
    assert Distinct(w) == {x};
    var rep := y => multiset(w)[y] >= 2;
    CountWhereAll(w, rep);
  }

  // ----- tempo field -----

  predicate IsDigit(c: char) { '0' <= c <= '9' }

  /** Length of the run of decimal digits starting at `i`. */
  function DigitRun(s: string, i: nat): (n: nat)
    ensures i + n <= |s| || n == 0
    ensures forall j :: i <= j < i + n ==> IsDigit(s[j])
    ensures i + n < |s| ==> !IsDigit(s[i + n])
    decreases |s| - i
  {
    if i < |s| && IsDigit(s[i]) then 1 + DigitRun(s, i + 1) else 0
  }

  /** Index after the run of `\s` characters starting at `i`. */
  function SkipWhitespace(s: string, i: nat): (j: nat)
    ensures i <= j && (j <= |s| || j == i)
    ensures forall k :: i <= k < j ==> IsJsWhitespace(s[k])
    ensures j < |s| ==> !IsJsWhitespace(s[j])
    decreases |s| - i
  {
    if i < |s| && IsJsWhitespace(s[i]) then SkipWhitespace(s, i + 1) else i
  }

  /** The value of `(\d+)` when the digit run at `i` is non-empty. */
  function NumberAt(s: string, i: nat): Option<nat>
  {
    var n := DigitRun(s, i);
    if n == 0 then None else Some(DigitsValue(s[i..i + n]))
  }

  /** `/Q:\s*\d+\/\d+=(\d+)/` matched at position `i`. */
  function FractionTempoAt(s: string, i: nat): Option<nat>
  {
    if !OccursAt(s, "Q:", i) then None
    else
      var j := SkipWhitespace(s, i + 2);
      var d1 := DigitRun(s, j);
      var k := j + d1;
      if d1 == 0 || k >= |s| || s[k] != '/' then None
      else
        var d2 := DigitRun(s, k + 1);
        var m := k + 1 + d2;
        if d2 == 0 || m >= |s| || s[m] != '=' then None
        else NumberAt(s, m + 1)
  }

  /** `/Q:\s*(\d+)/` matched at position `i`. */
  function SimpleTempoAt(s: string, i: nat): Option<nat>
  {
    if !OccursAt(s, "Q:", i) then None else NumberAt(s, SkipWhitespace(s, i + 2))
  }

  /** The leftmost match of a pattern, trying positions from `i` on. */
  function FirstMatch(s: string, i: nat, at: (string, nat) -> Option<nat>): (r: Option<nat>)
    ensures r.Some? ==> exists j :: i <= j <= |s| && at(s, j) == r
    ensures r.None? ==> forall j :: i <= j <= |s| ==> at(s, j).None?
    decreases |s| - i
  {
    if i > |s| then None
    else if at(s, i).Some? then at(s, i)
    else FirstMatch(s, i + 1, at)
  }

  /** extractTempo: the fractional form wins, then the bare form, then 120. */
  function ExtractTempo(abc: string): (tempo: nat)
    ensures FirstMatch(abc, 0, FractionTempoAt).Some? ==> tempo == FirstMatch(abc, 0, FractionTempoAt).value
    ensures FirstMatch(abc, 0, FractionTempoAt).None? && FirstMatch(abc, 0, SimpleTempoAt).Some? ==>
      tempo == FirstMatch(abc, 0, SimpleTempoAt).value
    ensures FirstMatch(abc, 0, FractionTempoAt).None? && FirstMatch(abc, 0, SimpleTempoAt).None? ==> tempo == 120
  {
    match FirstMatch(abc, 0, FractionTempoAt)
    case Some(t) => t
    case None =>
      match FirstMatch(abc, 0, SimpleTempoAt)
      case Some(t) => t
      case None => 120
  }

  /** Without a `Q:` field the tempo is 120. */
  lemma {:induction false} TempoDefault(abc: string)
    requires !Contains(abc, "Q:")
    ensures ExtractTempo(abc) == 120
  {
    assert forall j :: 0 <= j <= |abc| ==> !OccursAt(abc, "Q:", j);
  }

  // ----- difficulty -----

  datatype Difficulty = Beginner | Intermediate | Advanced

  function DifficultyRank(d: Difficulty): nat
  {
    match d
    case Beginner => 0
    case Intermediate => 1
    case Advanced => 2
  }

  /** 2 points above `high`, 1 above `low`, otherwise 0. */
  function Band(x: real, high: real, low: real): int
  {
    if x > high then 2 else if x > low then 1 else 0
  }

  function DifficultyPoints(rangeSpan: int, leapMean: real, notesPerMeasure: real, tempo: real): (p: int)
    ensures 0 <= p <= 8
  {
    Band(rangeSpan as real, 24.0, 12.0) + Band(leapMean, 5.0, 3.0)
    + Band(notesPerMeasure, 8.0, 4.0) + Band(tempo, 140.0, 100.0)
  }

  function LevelFor(points: int): Difficulty
  {
    if points >= 6 then Advanced else if points >= 3 then Intermediate else Beginner
  }

  /** estimateDifficulty: add each band's points to `score`, then map the total to a level. */
  method EstimateDifficulty(rangeSpan: int, leapMean: real, notesPerMeasure: real, tempo: real)
    returns (level: Difficulty)
    ensures level == LevelFor(DifficultyPoints(rangeSpan, leapMean, notesPerMeasure, tempo))
  {
    var score := 0;
    if rangeSpan > 24 { score := score + 2; } else if rangeSpan > 12 { score := score + 1; }
    if leapMean > 5.0 { score := score + 2; } else if leapMean > 3.0 { score := score + 1; }
    if notesPerMeasure > 8.0 { score := score + 2; } else if notesPerMeasure > 4.0 { score := score + 1; }
    if tempo > 140.0 { score := score + 2; } else if tempo > 100.0 { score := score + 1; }
    if score >= 6 {
      level := Advanced;
    } else if score >= 3 {
      level := Intermediate;
    } else {
      level := Beginner;
    }
  }

  /** A wider, leapier, denser or faster melody is never rated easier. */
  lemma {:induction false} DifficultyMonotone(s1: int, l1: real, n1: real, t1: real, s2: int, l2: real, n2: real, t2: real)
    requires s1 <= s2 && l1 <= l2 && n1 <= n2 && t1 <= t2
    ensures DifficultyRank(LevelFor(DifficultyPoints(s1, l1, n1, t1)))
         <= DifficultyRank(LevelFor(DifficultyPoints(s2, l2, n2, t2)))
  {
    assert Band(s1 as real, 24.0, 12.0) <= Band(s2 as real, 24.0, 12.0);
    assert Band(l1, 5.0, 3.0) <= Band(l2, 5.0, 3.0);
    assert Band(n1, 8.0, 4.0) <= Band(n2, 8.0, 4.0);
    assert Band(t1, 140.0, 100.0) <= Band(t2, 140.0, 100.0);
  }

  // ----- playability -----

  /** Per-instrument factors applied to the mean leap and the tempo. */
  datatype Coefficients = Coefficients(leapCoefficient: real, tempoCoefficient: real)

  /** The comfortable MIDI range of an instrument. */
  datatype InstrumentRange = InstrumentRange(comfortableMin: int, comfortableMax: int)

  function LeapPenalty(adjustedLeap: real): real
  {
    if adjustedLeap > 7.0 then 2.5 else if adjustedLeap > 5.0 then 1.5 else if adjustedLeap > 3.0 then 0.5 else 0.0
  }

  function DensityPenalty(chromaticDensity: real): real
  {
    if chromaticDensity > 0.4 then 1.5 else if chromaticDensity > 0.2 then 0.5 else 0.0
  }

  function TempoPenalty(adjustedTempo: real): real
  {
    if adjustedTempo > 160.0 then 2.0 else if adjustedTempo > 120.0 then 1.0 else if adjustedTempo < 60.0 then 0.5 else 0.0
  }

  /** 10 less the range, leap, density and tempo penalties, before clamping. */
  function PlayabilityRaw(rangeOk: bool, adjustedLeap: real, chromaticDensity: real, adjustedTempo: real): (s: real)
    ensures 1.0 <= s <= 10.0
  {
    10.0 - (if rangeOk then 0.0 else 3.0) - LeapPenalty(adjustedLeap)
    - DensityPenalty(chromaticDensity) - TempoPenalty(adjustedTempo)
  }

  /** The clamped score, with the leap and tempo scaled by the instrument's coefficients. */
  function PlayabilityScore(rangeOk: bool, leapMean: real, chromaticDensity: real, tempo: real,
                            leapCoefficient: real, tempoCoefficient: real): real
  {
    ClampReal(PlayabilityRaw(rangeOk, leapMean * leapCoefficient, chromaticDensity, tempo * tempoCoefficient), 0.0, 10.0)
  }

  /**
   * calculatePlayabilityScore: deduct each penalty from 10 in turn, then
   * clamp to [0, 10]. The two coefficients are what the instrument table
   * returns for the instrument.
   */
  method CalculatePlayabilityScore(rangeOk: bool, leapMean: real, chromaticDensity: real, tempo: real,
                                   leapCoefficient: real, tempoCoefficient: real)
    returns (score: real)
    ensures score == PlayabilityScore(rangeOk, leapMean, chromaticDensity, tempo, leapCoefficient, tempoCoefficient)
    ensures 1.0 <= score <= 10.0
  {
    score := 10.0;
    if !rangeOk {
      score := score - 3.0;
    }
    var adjustedLeap := leapMean * leapCoefficient;
    if adjustedLeap > 7.0 {
      score := score - 2.5;
    } else if adjustedLeap > 5.0 {
      score := score - 1.5;
    } else if adjustedLeap > 3.0 {
      score := score - 0.5;
    }
    if chromaticDensity > 0.4 {
      score := score - 1.5;
    } else if chromaticDensity > 0.2 {
      score := score - 0.5;
    }
    var adjustedTempo := tempo * tempoCoefficient;
    if adjustedTempo > 160.0 {
      score := score - 2.0;
    } else if adjustedTempo > 120.0 {
      score := score - 1.0;
    } else if adjustedTempo < 60.0 {
      score := score - 0.5;
    }
    assert score == PlayabilityRaw(rangeOk, adjustedLeap, chromaticDensity, adjustedTempo);
    score := MaxReal(0.0, MinReal(10.0, score));
    PlayabilityClampNeverBites(rangeOk, leapMean, chromaticDensity, tempo, leapCoefficient, tempoCoefficient);
  }

  /** The penalties total at most 9, so the clamp to [0, 10] never changes the score. */
  lemma PlayabilityClampNeverBites(rangeOk: bool, leapMean: real, chromaticDensity: real, tempo: real,
                                   leapCoefficient: real, tempoCoefficient: real)
    ensures PlayabilityScore(rangeOk, leapMean, chromaticDensity, tempo, leapCoefficient, tempoCoefficient)
         == PlayabilityRaw(rangeOk, leapMean * leapCoefficient, chromaticDensity, tempo * tempoCoefficient)
  {
  }

  /** A melody outside the comfortable range scores exactly 3 less than the same melody inside it. */
  lemma {:induction false} PlayabilityOutOfRangeCostsThree(leapMean: real, chromaticDensity: real, tempo: real,
                                                          leapCoefficient: real, tempoCoefficient: real)
    ensures PlayabilityScore(false, leapMean, chromaticDensity, tempo, leapCoefficient, tempoCoefficient)
         == PlayabilityScore(true, leapMean, chromaticDensity, tempo, leapCoefficient, tempoCoefficient) - 3.0
  {
    var adjustedLeap, adjustedTempo := leapMean * leapCoefficient, tempo * tempoCoefficient;
    calc {
      PlayabilityScore(false, leapMean, chromaticDensity, tempo, leapCoefficient, tempoCoefficient);
      { PlayabilityClampNeverBites(false, leapMean, chromaticDensity, tempo, leapCoefficient, tempoCoefficient); }
      PlayabilityRaw(false, adjustedLeap, chromaticDensity, adjustedTempo);
      PlayabilityRaw(true, adjustedLeap, chromaticDensity, adjustedTempo) - 3.0;
      { PlayabilityClampNeverBites(true, leapMean, chromaticDensity, tempo, leapCoefficient, tempoCoefficient); }
      PlayabilityScore(true, leapMean, chromaticDensity, tempo, leapCoefficient, tempoCoefficient) - 3.0;
    }
  }

  // ----- learning value -----

  function RepetitionBonus(ratio: real): real
  {
    if 0.3 <= ratio <= 0.6 then 1.5 else if ratio > 0.6 then -1.0 else if ratio < 0.1 then -0.5 else 0.0
  }

  function SequenceBonus(count: int): real
  {
    if 3 <= count <= 8 then 1.0 else if count > 8 then -0.5 else 0.0
  }

  function DensityBonus(notesPerMeasure: real): real
  {
    if 4.0 <= notesPerMeasure <= 8.0 then 0.5
    else if notesPerMeasure > 12.0 then -1.0
    else if notesPerMeasure < 2.0 then -0.5
    else 0.0
  }

  function LevelBonus(level: Difficulty): real
  {
    match level
    case Intermediate => 0.5
    case Beginner => 0.3
    case Advanced => 0.0
  }

  /** The playability score plus the four adjustments, before clamping. */
  function LearningRaw(playability: real, ratio: real, count: int, notesPerMeasure: real, level: Difficulty): real
  {
    playability + RepetitionBonus(ratio) + SequenceBonus(count) + DensityBonus(notesPerMeasure) + LevelBonus(level)
  }

  /** calculateLearningValueScore: adjust the playability score step by step, then clamp to [0, 10]. */
  method CalculateLearningValueScore(playability: real, ratio: real, count: int, notesPerMeasure: real, level: Difficulty)
    returns (score: real)
    ensures score == ClampReal(LearningRaw(playability, ratio, count, notesPerMeasure, level), 0.0, 10.0)
    ensures 0.0 <= score <= 10.0
  {
    score := playability;
    if ratio >= 0.3 && ratio <= 0.6 {
      score := score + 1.5;
    } else if ratio > 0.6 {
      score := score - 1.0;
    } else if ratio < 0.1 {
      score := score - 0.5;
    }
    if count >= 3 && count <= 8 {
      score := score + 1.0;
    } else if count > 8 {
      score := score - 0.5;
    }
    if notesPerMeasure >= 4.0 && notesPerMeasure <= 8.0 {
      score := score + 0.5;
    } else if notesPerMeasure > 12.0 {
      score := score - 1.0;
    } else if notesPerMeasure < 2.0 {
      score := score - 0.5;
    }
    if level == Intermediate {
      score := score + 0.5;
    } else if level == Beginner {
      score := score + 0.3;
    }
    score := MaxReal(0.0, MinReal(10.0, score));
  }

  /** A more playable melody never has a lower learning value, other things equal. */
  lemma {:induction false} LearningValueMonotoneInPlayability(p1: real, p2: real, ratio: real, count: int, npm: real, level: Difficulty)
    requires p1 <= p2
    ensures ClampReal(LearningRaw(p1, ratio, count, npm, level), 0.0, 10.0)
         <= ClampReal(LearningRaw(p2, ratio, count, npm, level), 0.0, 10.0)
  {
  }

  // ----- whole analysis and the quality gate -----

  const DEFAULT_QUALITY_THRESHOLD: real := 6.0

  /** What the abcjs parse yields: the notes as MIDI numbers and the number of bar lines. */
  datatype Tune = Tune(notes: seq<int>, barCount: nat)

  datatype AbcAnalysis = AbcAnalysis(
    noteCount: nat,
    measureCount: nat,
    uniquePitches: nat,
    rangeMin: int,
    rangeMax: int,
    rangeSpan: int,
    rangeOk: bool,
    leapMean: real,
    leapMax: int,
    leapCount: nat,
    chromaticDensity: real,
    notesPerMeasure: real,
    repetitionRatio: real,
    sequenceCount: nat,
    tempoQpm: nat,
    playabilityScore: real,
    learningValueScore: real,
    instrument: string,
    difficulty: Difficulty)

  /** isRangeComfortable. */
  predicate RangeComfortable(lo: int, hi: int, range: InstrumentRange)
  {
    lo >= range.comfortableMin && hi <= range.comfortableMax
  }

  function SeqMin(s: seq<int>): (m: int)
    requires s != []
    ensures m in s && forall x :: x in s ==> m <= x
  {
    if |s| == 1 then s[0] else
      var rest := SeqMin(s[1..]);
      assert s == [s[0]] + s[1..];
      if s[0] <= rest then s[0] else rest
  }

  function SeqMax(s: seq<int>): (m: int)
    requires s != []
    ensures m in s && forall x :: x in s ==> x <= m
  {
    if |s| == 1 then s[0] else
      var rest := SeqMax(s[1..]);
      assert s == [s[0]] + s[1..];
      if s[0] >= rest then s[0] else rest
  }

  function Identity(x: int): int { x }

  function IsWideLeap(d: int): bool { d >= 5 }

  /** The melody is comfortable exactly when every note lies in the instrument's comfortable range. */
  lemma {:induction false} RangeComfortableIffAllNotesInside(notes: seq<int>, range: InstrumentRange)
    requires notes != []
    ensures RangeComfortable(SeqMin(notes), SeqMax(notes), range)
        <==> forall x :: x in notes ==> range.comfortableMin <= x <= range.comfortableMax
  {
  }

  /**
   * analyzeAbc: None when the parse fails or yields no notes; otherwise
   * every statistic and score of the melody.
   */
  method AnalyzeAbc(abc: string, instrument: string, parsed: Option<Tune>,
                    range: InstrumentRange, coefficientsOf: string -> Coefficients)
    returns (r: Option<AbcAnalysis>)
    ensures r.None? <==> parsed.None? || parsed.value.notes == []
    ensures r.Some? ==> r.value.noteCount == |parsed.value.notes| && r.value.instrument == instrument
    ensures r.Some? ==> r.value.rangeMin == SeqMin(parsed.value.notes) && r.value.rangeMax == SeqMax(parsed.value.notes)
    ensures r.Some? ==> r.value.rangeSpan == r.value.rangeMax - r.value.rangeMin >= 0
    ensures r.Some? ==> r.value.rangeOk == RangeComfortable(r.value.rangeMin, r.value.rangeMax, range)
    ensures r.Some? ==> r.value.measureCount == if parsed.value.barCount > 0 then parsed.value.barCount else 1
    ensures r.Some? ==> r.value.uniquePitches == |set x | x in parsed.value.notes|
    ensures r.Some? ==> r.value.notesPerMeasure == |parsed.value.notes| as real / r.value.measureCount as real
    ensures r.Some? ==> var leaps := Filter(Intervals(parsed.value.notes), IsLeap);
      r.value.leapCount == CountWhere(leaps, IsWideLeap)
      && r.value.leapMean == (if leaps == [] then 0.0 else SumInt(leaps, Identity) as real / |leaps| as real)
    ensures r.Some? ==> var steps := Intervals(parsed.value.notes);
      (forall d :: d in steps ==> d <= r.value.leapMax) && (r.value.leapMax == 0 || r.value.leapMax in steps)
    ensures r.Some? ==> r.value.chromaticDensity == ChromaticDensity(parsed.value.notes)
    ensures r.Some? ==> r.value.repetitionRatio == RepetitionOf(parsed.value.notes).repetitionRatio
    ensures r.Some? ==> r.value.sequenceCount == RepetitionOf(parsed.value.notes).sequenceCount
    ensures r.Some? ==> r.value.tempoQpm == ExtractTempo(abc)
    ensures r.Some? ==> var a := r.value;
      a.difficulty == LevelFor(DifficultyPoints(a.rangeSpan, a.leapMean, a.notesPerMeasure, a.tempoQpm as real))
    ensures r.Some? ==> var a := r.value;
      a.playabilityScore == PlayabilityScore(a.rangeOk, a.leapMean, a.chromaticDensity, a.tempoQpm as real,
                                             coefficientsOf(instrument).leapCoefficient, coefficientsOf(instrument).tempoCoefficient)
    ensures r.Some? ==> var a := r.value;
      a.learningValueScore == ClampReal(LearningRaw(a.playabilityScore, a.repetitionRatio, a.sequenceCount,
                                                    a.notesPerMeasure, a.difficulty), 0.0, 10.0)
  {
    var parsed := parsed;
    if parsed.None? || parsed.value.notes == [] {
      return None;
    }
    var notes := parsed.value.notes;
    var noteCount := |notes|;
    var measureCount := if parsed.value.barCount > 0 then parsed.value.barCount else 1;
    var uniquePitches := |set x | x in notes|;
    var rangeMin := SeqMin(notes);
    var rangeMax := SeqMax(notes);
    var rangeSpan := rangeMax - rangeMin;
    assert rangeMin <= notes[0] <= rangeMax;
    var rangeOk := RangeComfortable(rangeMin, rangeMax, range);

    var leaps := CalculateLeaps(notes);
    var leapMean := if |leaps| > 0 then SumInt(leaps, Identity) as real / |leaps| as real else 0.0;
    var leapMax := if |leaps| > 0 then SeqMax(leaps) else 0;
    forall d | d in Intervals(notes)
      ensures d <= leapMax
    {
      if IsLeap(d) {
        assert d in leaps;
      }
    }
    var leapCount := CountWhere(leaps, IsWideLeap);

    var chromaticDensity := CalculateChromaticDensity(notes);
    var notesPerMeasure := noteCount as real / Max(measureCount, 1) as real;
    var repetition := AnalyzeRepetition(notes);
    var tempo := ExtractTempo(abc);
    var level := EstimateDifficulty(rangeSpan, leapMean, notesPerMeasure, tempo as real);
    var coefficients := coefficientsOf(instrument);
    var playability := CalculatePlayabilityScore(rangeOk, leapMean, chromaticDensity, tempo as real,
                                                 coefficients.leapCoefficient, coefficients.tempoCoefficient);
    var learning := CalculateLearningValueScore(playability, repetition.repetitionRatio, repetition.sequenceCount,
                                                notesPerMeasure, level);
    r := Some(AbcAnalysis(noteCount, measureCount, uniquePitches, rangeMin, rangeMax, rangeSpan, rangeOk,
                          leapMean, leapMax, leapCount, chromaticDensity, notesPerMeasure,
                          repetition.repetitionRatio, repetition.sequenceCount, tempo, playability, learning,
                          instrument, level));
  }

  /** passesQualityGate: the learning value reaches the threshold (6.0 by default). */
  function PassesQualityGate(a: AbcAnalysis, threshold: real): (passes: bool)
    ensures passes <==> a.learningValueScore >= threshold
  {
    a.learningValueScore >= threshold
  }

  /** Passing a threshold means passing every lower one; nothing passes a threshold above 10. */
  lemma {:induction false} QualityGateMonotone(a: AbcAnalysis, lower: real, higher: real)
    requires lower <= higher
    requires 0.0 <= a.learningValueScore <= 10.0
    ensures PassesQualityGate(a, higher) ==> PassesQualityGate(a, lower)
    ensures higher > 10.0 ==> !PassesQualityGate(a, higher)
  {
  }
}
