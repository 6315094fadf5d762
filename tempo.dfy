/** Splitting a tempo change into chained `atempo` stages. Two loops in the audio
    command builder do this: the playback-speed loop, which doubles or halves until
    the rest is within one stage's range, and the "time" stretch loop, which keeps
    halving a stretch factor. Each loop is a method proved equal to a recursive
    specification, and the properties of the decomposition are proved about that
    specification. */
module Tempo {
  import opened Strings

  /** One tempo stage: the fixed doubling and halving stages, or a stage with a
      computed factor. */
  datatype TempoStage = Double | Halve | Residual(factor: real)

  function Factor(s: TempoStage): real {
    match s
    case Double => 2.0
    case Halve => 0.5
    case Residual(f) => f
  }

  /** The filter term the encoder is given for a stage. */
  function Token(s: TempoStage): string {
    match s
    case Double => "atempo=2.0"
    case Halve => "atempo=0.5"
    case Residual(f) => "atempo=" + Fmt2(f)
  }

  function Tokens(stages: seq<TempoStage>): (r: seq<string>)
    ensures |r| == |stages| && forall k :: 0 <= k < |r| ==> r[k] == Token(stages[k])
  {
    if |stages| == 0 then [] else [Token(stages[0])] + Tokens(stages[1..])
  }

  /** The overall tempo change of a chain of stages. */
  function Product(stages: seq<TempoStage>): real {
    if |stages| == 0 then 1.0 else Factor(stages[0]) * Product(stages[1..])
  }

  lemma {:induction false} ProductAppend(a: seq<TempoStage>, b: seq<TempoStage>)
    ensures Product(a + b) == Product(a) * Product(b)
  {
    if |a| > 0 {
      assert (a + b)[1..] == a[1..] + b;
      ProductAppend(a[1..], b);
      MulAssoc(Factor(a[0]), Product(a[1..]), Product(b));
    } else {
      assert a + b == b;
    }
  }

  lemma MulAssoc(x: real, y: real, z: real)
    ensures x * (y * z) == (x * y) * z
  {
  }

  // ---------------------------------------------------------------------------
  // Termination measures

  /** Halving a number above one lowers its integer part. */
  lemma HalveFloor(x: real)
    requires x > 1.0
    ensures 0 <= (x / 2.0).Floor < x.Floor
  {
  }

  /** Doubling a positive number below one half lowers the integer part of its
      reciprocal. */
  lemma DoubleReciprocalFloor(x: real)
    requires 0.0 < x < 0.5
    ensures 0 <= (1.0 / (x * 2.0)).Floor < (1.0 / x).Floor
  {
    var y := 1.0 / x;
    assert y * x == 1.0;
    assert y > 2.0;
    assert 1.0 / (x * 2.0) == y / 2.0;
    HalveFloor(y);
  }

  // ---------------------------------------------------------------------------
  // Playback speed

  /** The halving stages: "atempo=0.5" while the rest is below one half, then the
      residual stage unless the rest is exactly one. */
  function UpStages(s: real): seq<TempoStage>
    requires s > 0.0
    decreases (1.0 / s).Floor
  {
    if s < 0.5 then
      DoubleReciprocalFloor(s);
      [Halve] + UpStages(s * 2.0)
    else if s != 1.0 then [Residual(s)]
    else []
  }

  /** The doubling stages: "atempo=2.0" while the rest is above two, then the
      halving stages. */
  function DownStages(s: real): seq<TempoStage>
    requires s > 0.0
    decreases s.Floor
  {
    if s > 2.0 then
      HalveFloor(s);
      [Double] + DownStages(s / 2.0)
    else UpStages(s)
  }

  /** The stages emitted for a playback speed; none at all for speed 1. */
  function SpeedStagesSpec(speed: real): seq<TempoStage>
    requires speed > 0.0
  {
    if speed == 1.0 then [] else DownStages(speed)
  }

  /** The playback-speed loops of the audio builder. */
  method SpeedStages(speed: real) returns (stages: seq<TempoStage>)
    requires speed > 0.0
    ensures stages == SpeedStagesSpec(speed)
  {
    stages := [];
    if speed != 1.0 {
      var s := speed;
      while s > 2.0
        invariant s > 0.0
        invariant stages + DownStages(s) == DownStages(speed)
        decreases s.Floor
      {
        HalveFloor(s);
        stages := stages + [Double];
        s := s / 2.0;
      }
      while s < 0.5
        invariant s > 0.0
        invariant stages + UpStages(s) == DownStages(speed)
        decreases (1.0 / s).Floor
      {
        DoubleReciprocalFloor(s);
        stages := stages + [Halve];
        s := s * 2.0;
      }
      if s != 1.0 {
        stages := stages + [Residual(s)];
      }
    }
  }

  lemma {:induction false} UpStagesProduct(s: real)
    requires s > 0.0
    ensures Product(UpStages(s)) == s
    decreases (1.0 / s).Floor
  {
    if s < 0.5 {
      DoubleReciprocalFloor(s);
      UpStagesProduct(s * 2.0);
      assert UpStages(s)[1..] == UpStages(s * 2.0);
    }
  }

  lemma {:induction false} DownStagesProduct(s: real)
    requires s > 0.0
    ensures Product(DownStages(s)) == s
    decreases s.Floor
  {
    if s > 2.0 {
      HalveFloor(s);
      DownStagesProduct(s / 2.0);
      assert DownStages(s)[1..] == DownStages(s / 2.0);
    } else {
      UpStagesProduct(s);
    }
  }

  /** The chained stages multiply out to exactly the requested speed. */
  lemma SpeedStagesProduct(speed: real)
    requires speed > 0.0
    ensures Product(SpeedStagesSpec(speed)) == speed
  {
    if speed != 1.0 {
      DownStagesProduct(speed);
    }
  }

  /** Every stage is within what one `atempo` stage accepts. */
  predicate StagesInRange(stages: seq<TempoStage>) {
    forall k :: 0 <= k < |stages| ==> 0.5 <= Factor(stages[k]) <= 2.0
  }

  lemma {:induction false} UpStagesInRange(s: real)
    requires 0.0 < s <= 2.0
    ensures StagesInRange(UpStages(s))
    decreases (1.0 / s).Floor
  {
    if s < 0.5 {
      DoubleReciprocalFloor(s);
      UpStagesInRange(s * 2.0);
      assert UpStages(s) == [Halve] + UpStages(s * 2.0);
    }
  }

  lemma {:induction false} DownStagesInRange(s: real)
    requires s > 0.0
    ensures StagesInRange(DownStages(s))
    decreases s.Floor
  {
    if s > 2.0 {
      HalveFloor(s);
      DownStagesInRange(s / 2.0);
      assert DownStages(s) == [Double] + DownStages(s / 2.0);
    } else {
      UpStagesInRange(s);
    }
  }

  lemma SpeedStagesInRange(speed: real)
    requires speed > 0.0
    ensures StagesInRange(SpeedStagesSpec(speed))
  {
    if speed != 1.0 {
      DownStagesInRange(speed);
    }
  }

  /** The order of stage kinds: doublings, then halvings, then the residual. */
  function Rank(s: TempoStage): nat {
    match s
    case Double => 0
    case Halve => 1
    case Residual(_) => 2
  }

  /** Stages come in rank order, only the last may be a residual stage, and a
      residual stage never has factor one. */
  predicate WellFormed(stages: seq<TempoStage>) {
    (forall i, j :: 0 <= i < j < |stages| ==> Rank(stages[i]) <= Rank(stages[j]))
    && (forall k :: 0 <= k < |stages| - 1 ==> !stages[k].Residual?)
    && (forall k :: 0 <= k < |stages| && stages[k].Residual? ==> stages[k].factor != 1.0)
  }

  /** Doubling and halving stages never occur together. */
  predicate OneDirection(stages: seq<TempoStage>) {
    !(Double in stages && Halve in stages)
  }

  lemma {:induction false} UpStagesShape(s: real)
    requires s > 0.0
    ensures WellFormed(UpStages(s)) && Double !in UpStages(s)
    decreases (1.0 / s).Floor
  {
    if s < 0.5 {
      DoubleReciprocalFloor(s);
      UpStagesShape(s * 2.0);
      var rest := UpStages(s * 2.0);
      assert UpStages(s) == [Halve] + rest;
      forall k | 1 <= k < |rest| + 1 ensures ([Halve] + rest)[k] == rest[k - 1] {
      }
    }
  }

  lemma {:induction false} DownStagesShape(s: real)
    requires s > 0.0
    ensures WellFormed(DownStages(s))
    ensures s > 2.0 ==> Halve !in DownStages(s)
    ensures s <= 2.0 ==> Double !in DownStages(s)
    decreases s.Floor
  {
    if s > 2.0 {
      HalveFloor(s);
      DownStagesShape(s / 2.0);
      var rest := DownStages(s / 2.0);
      assert DownStages(s) == [Double] + rest;
      forall k | 1 <= k < |rest| + 1 ensures ([Double] + rest)[k] == rest[k - 1] {
      }
      if s / 2.0 <= 2.0 {
        UpStagesNoHalveAboveOne(s / 2.0);
      }
    } else {
      UpStagesShape(s);
    }
  }

  /** Above one no halving stage is needed. */
  lemma UpStagesNoHalveAboveOne(s: real)
    requires s >= 0.5
    ensures Halve !in UpStages(s)
  {
  }

  /** The playback-speed stages: doublings or halvings (never both), then at most one
      residual stage, which is never 1. */
  lemma SpeedStagesShape(speed: real)
    requires speed > 0.0
    ensures WellFormed(SpeedStagesSpec(speed)) && OneDirection(SpeedStagesSpec(speed))
  {
    if speed != 1.0 {
      DownStagesShape(speed);
    }
  }

  /** Speed 1 needs no stage, and any other speed needs at least one. */
  lemma SpeedStagesEmptyIff(speed: real)
    requires speed > 0.0
    ensures SpeedStagesSpec(speed) == [] <==> speed == 1.0
  {
    SpeedStagesProduct(speed);
  }

  // ---------------------------------------------------------------------------
  // Time stretch with the "time" algorithm

  /** The stretch loop from `f` on: while `f` is above one, a doubling stage when
      `f` is at least two, otherwise a stage of factor `f`; then `f` is halved. */
  function HalvingStages(f: real): seq<TempoStage>
    requires f > 0.0
    decreases f.Floor
  {
    if f > 1.0 then
      HalveFloor(f);
      [if f >= 2.0 then Double else Residual(f)] + HalvingStages(f / 2.0)
    else []
  }

  /** The stages for a stretch factor: the loop only for factors above two, a single
      stage otherwise. */
  function TimeStretchSpec(factor: real): seq<TempoStage>
  {
    if factor > 2.0 then HalvingStages(factor) else [Residual(factor)]
  }

  /** The "time" stretch branch of the audio builder. */
  method TimeStretchStages(factor: real) returns (stages: seq<TempoStage>)
    ensures stages == TimeStretchSpec(factor)
  {
    if factor > 2.0 {
      stages := [];
      var f := factor;
      while f > 1.0
        invariant f > 0.0
        invariant stages + HalvingStages(f) == HalvingStages(factor)
        decreases f.Floor
      {
        HalveFloor(f);
        var stage := if f >= 2.0 then Double else Residual(f);
        assert HalvingStages(f) == [stage] + HalvingStages(f / 2.0);
        assert (stages + [stage]) + HalvingStages(f / 2.0) == stages + HalvingStages(f);
        stages := stages + [stage];
        f := f / 2.0;
      }
      assert HalvingStages(f) == [];
    } else {
      stages := [Residual(factor)];
    }
  }

  lemma {:induction false} HalvingStagesProduct(f: real)
    requires f >= 1.0
    ensures Product(HalvingStages(f)) == f
    decreases f.Floor
  {
    if f > 1.0 {
      HalveFloor(f);
      var rest := HalvingStages(f / 2.0);
      assert HalvingStages(f)[1..] == rest;
      if f >= 2.0 {
        HalvingStagesProduct(f / 2.0);
      } else {
        assert f / 2.0 <= 1.0;
        assert rest == [];
      }
    }
  }

  /** The stretch stages multiply out to exactly the stretch factor. */
  lemma TimeStretchProduct(factor: real)
    ensures Product(TimeStretchSpec(factor)) == factor
  {
    if factor > 2.0 {
      HalvingStagesProduct(factor);
    }
  }

  /** A factor of at most two gives one stage. */
  lemma TimeStretchSmall(factor: real)
    requires factor <= 2.0
    ensures TimeStretchSpec(factor) == [Residual(factor)]
  {
  }

  /** Stretching by 8 gives exactly three doubling stages. */
  lemma TimeStretchEight()
    ensures TimeStretchSpec(8.0) == [Double, Double, Double]
  {
    assert HalvingStages(1.0) == [];
    assert HalvingStages(2.0) == [Double];
    assert HalvingStages(4.0) == [Double, Double];
  }

  /** Stretching by 3 gives a doubling stage and then a stage of 1.5. */
  lemma TimeStretchThree()
    ensures TimeStretchSpec(3.0) == [Double, Residual(1.5)]
  {
    assert HalvingStages(0.75) == [];
    assert HalvingStages(1.5) == [Residual(1.5)];
  }

  /** ... which the encoder receives as "atempo=2.0" then "atempo=1.50". */
  lemma TimeStretchThreeTokens()
    ensures Tokens(TimeStretchSpec(3.0)) == ["atempo=2.0", "atempo=" + "1.50"]
  {
    var st := [Double, Residual(1.5)];
    assert TimeStretchSpec(3.0) == st by {
      TimeStretchThree();
    }
    assert Token(Residual(1.5)) == "atempo=" + "1.50" by {
      Fmt2OneAndHalf();
    }
    assert st[1..] == [Residual(1.5)];
    assert Tokens(st) == ["atempo=2.0"] + Tokens([Residual(1.5)]);
  }

  lemma Fmt2OneAndHalf()
    ensures Fmt2(1.5) == "1.50"
  {
    assert ScaledRound(1.5, 2) == ScaledRound(150.0, 0);
    RoundWhole(150);
    assert NatToString(1) == "1";
    assert FixedDigits(150, 2) == FixedDigits(15, 1) + ['0'];
    assert FixedDigits(15, 1) == "1" + "." + ['5'];
  }
}
