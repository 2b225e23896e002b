/** The simple estimation engine (src/utils/calculations.ts): three scenarios
    from the base tables and fixed multipliers, a 40% risk buffer on
    development, one rounding per emitted figure, a +/-15% confidence interval,
    and a three-phase funding plan whose last phase takes the remainder. */
module Calculations {
  import opened Common
  import opened Domain
  import opened Coefficients

  /** The multipliers of one scenario. */
  datatype ScenarioConfig = ScenarioConfig(
    devMultiplier: real,
    gtmMultiplier: real,
    timelineMultiplier: real,
    breakEvenMultiplier: real)

  function Config(n: ScenarioName): ScenarioConfig
  {
    match n
    case Optimistic => ScenarioConfig(7.0 / 10.0, 6.0 / 10.0, 75.0 / 100.0, 15.0 / 10.0)
    case Realistic => ScenarioConfig(12.0 / 10.0, 12.0 / 10.0, 1.0, 175.0 / 100.0)
    case Conservative => ScenarioConfig(18.0 / 10.0, 2.0, 15.0 / 10.0, 225.0 / 100.0)
  }

  /** The order in which the scenario table is declared, and so emitted. */
  const ScenarioOrder: seq<ScenarioName> := [Optimistic, Realistic, Conservative]

  /** The table values one estimate reads. */
  datatype Bases = Bases(development: nat, regulatory: nat, gtmYear1: nat, gtmYears23: nat, months: nat)

  /** Only technology, stage and market are looked up. */
  function BasesOf(inputs: UserInputs): Bases
  {
    Bases(
      DevelopmentCost(inputs.technologyType, inputs.currentStage),
      RegulatoryCost(inputs.technologyType),
      GtmCost(inputs.targetMarket).year1,
      GtmCost(inputs.targetMarket).years23,
      StageTimeline(inputs.currentStage))
  }

  /** One scenario: exact arithmetic first, then each figure rounded once. */
  function ScenarioFor(b: Bases, n: ScenarioName): (s: Scenario)
    ensures s.name == n
  {
    var c := Config(n);
    var development := b.development as real * c.devMultiplier;
    var gtmYear1 := b.gtmYear1 as real * c.gtmMultiplier;
    var technical := development * (15.0 / 100.0);
    var riskBuffer := development * (40.0 / 100.0);
    var total := development + b.regulatory as real + gtmYear1 + riskBuffer;
    var breakdown := CostBreakdown(
      Round(development) as real,
      Round(technical) as real,
      Round(b.regulatory as real) as real,
      Round(gtmYear1) as real,
      Round(gtmYear1) as real,
      Round(b.gtmYears23 as real * c.gtmMultiplier) as real,
      Round(riskBuffer) as real,
      Round(total) as real,
      Round(b.months as real * c.breakEvenMultiplier) as real);
    Scenario(n, breakdown.total, Round(b.months as real * c.timelineMultiplier) as real, breakdown.breakEven, breakdown)
  }

  /** `calculateInvestment`: the three scenarios in declaration order and the
      interval around the middle one. */
  function CalculateInvestment(inputs: UserInputs): (r: CalculationResults)
    ensures |r.scenarios| == 3
    ensures forall k :: 0 <= k < 3 ==> r.scenarios[k].name == ScenarioOrder[k]
    ensures r.inputs == inputs
    ensures r.confidenceInterval.min == Round(r.scenarios[1].total * (85.0 / 100.0)) as real
    ensures r.confidenceInterval.max == Round(r.scenarios[1].total * (115.0 / 100.0)) as real
    ensures r.confidenceInterval.min <= r.scenarios[1].total <= r.confidenceInterval.max
  {
    var b := BasesOf(inputs);
    var scenarios := [ScenarioFor(b, Optimistic), ScenarioFor(b, Realistic), ScenarioFor(b, Conservative)];
    var t := scenarios[1].total;
    IntervalBrackets(b);
    CalculationResults(
      scenarios,
      ConfidenceInterval(Round(t * (85.0 / 100.0)) as real, Round(t * (115.0 / 100.0)) as real),
      inputs)
  }

  /** The realistic total is a whole, non-negative figure lying between its
      rounded 85% and its rounded 115%. */
  lemma IntervalBrackets(b: Bases)
    ensures var t := ScenarioFor(b, Realistic).total;
      Round(t * (85.0 / 100.0)) as real <= t <= Round(t * (115.0 / 100.0)) as real
  {
    var c := Config(Realistic);
    var development := b.development as real * c.devMultiplier;
    var gtmYear1 := b.gtmYear1 as real * c.gtmMultiplier;
    var n := Round(development + b.regulatory as real + gtmYear1 + development * (40.0 / 100.0));
    var t := n as real;
    assert ScenarioFor(b, Realistic).total == t;
    assert 0 <= n by {
      RoundMonotone(0.0, development + b.regulatory as real + gtmYear1 + development * (40.0 / 100.0));
    }
    RoundMonotone(t * (85.0 / 100.0), t);
    RoundMonotone(t, t * (115.0 / 100.0));
    RoundWhole(n);
  }

  // ---------------------------------------------------------------- the scenario figures

  /** The table values are whole multiples of 50,000, the years 2-3 ones of 100,000. */
  predicate WholeBases(b: Bases)
  {
    b.development % 50000 == 0 && b.gtmYear1 % 50000 == 0 && b.gtmYears23 % 100000 == 0
  }

  lemma BasesWhole(inputs: UserInputs)
    ensures WholeBases(BasesOf(inputs))
  {
    DevelopmentCostRound(inputs.technologyType, inputs.currentStage);
    GtmCostOrdered(inputs.targetMarket);
    GtmYears23Whole(inputs.targetMarket);
  }

  /** The years 2-3 go-to-market figures are whole multiples of 100,000. */
  lemma GtmYears23Whole(m: Market)
    ensures GtmCost(m).years23 % 100000 == 0
  {
  }

  /** The breakdown of scenario `n` reconciles with the tables: development,
      regulatory and GTM figures are the table values times the scenario's
      multipliers with nothing lost to rounding, the risk buffer is 40% and the
      technical share 15% of development, the total is development +
      regulatory + year-one GTM + risk buffer (so neither the technical share
      nor the years 2-3 GTM cost enters it), and the scenario shows the
      breakdown's total. */
  predicate Reconciles(b: Bases, n: ScenarioName)
  {
    var s, c := ScenarioFor(b, n), Config(n);
    var d := s.breakdown;
    && d.development == b.development as real * c.devMultiplier
    && d.regulatory == b.regulatory as real
    && d.gtmYear1 == b.gtmYear1 as real * c.gtmMultiplier
    && d.gtmYears23 == b.gtmYears23 as real * c.gtmMultiplier
    && d.gtm == d.gtmYear1
    && d.riskBuffer == d.development * (40.0 / 100.0)
    && d.technical == d.development * (15.0 / 100.0)
    && d.total == d.development + d.regulatory + d.gtmYear1 + d.riskBuffer
    && s.total == d.total
  }

  /** Every emitted money figure is exact: the tables hold whole multiples of
      50,000 (100,000 for years 2-3), no multiplier leaves a fraction of them,
      and so every scenario reconciles. */
  lemma ScenarioFigures(b: Bases, n: ScenarioName)
    requires WholeBases(b)
    ensures Reconciles(b, n)
  {
    var q := b.development / 50000;
    var y := b.gtmYear1 / 50000;
    var z := b.gtmYears23 / 100000;
    assert b.development == 50000 * q && b.gtmYear1 == 50000 * y && b.gtmYears23 == 100000 * z;
    match n {
      case Optimistic =>
        WholeFigures(b, n, 35000 * q, 5250 * q, 14000 * q, 30000 * y, 60000 * z);
      case Realistic =>
        WholeFigures(b, n, 60000 * q, 9000 * q, 24000 * q, 60000 * y, 120000 * z);
      case Conservative =>
        WholeFigures(b, n, 90000 * q, 13500 * q, 36000 * q, 100000 * y, 200000 * z);
    }
  }

  /** Every scenario `calculateInvestment` emits reconciles. */
  lemma InvestmentReconciles(inputs: UserInputs)
    ensures forall k :: 0 <= k < 3 ==> Reconciles(BasesOf(inputs), ScenarioOrder[k])
  {
    BasesWhole(inputs);
    ScenarioFigures(BasesOf(inputs), Optimistic);
    ScenarioFigures(BasesOf(inputs), Realistic);
    ScenarioFigures(BasesOf(inputs), Conservative);
  }

  /** A scenario whose multiplied figures are whole numbers reconciles. */
  lemma WholeFigures(b: Bases, n: ScenarioName, development: int, technical: int, riskBuffer: int, gtmYear1: int, gtmYears23: int)
    requires b.development as real * Config(n).devMultiplier == development as real
    requires development as real * (15.0 / 100.0) == technical as real
    requires development as real * (40.0 / 100.0) == riskBuffer as real
    requires b.gtmYear1 as real * Config(n).gtmMultiplier == gtmYear1 as real
    requires b.gtmYears23 as real * Config(n).gtmMultiplier == gtmYears23 as real
    ensures Reconciles(b, n)
  {
    WholeBreakdown(b, n, development, technical, riskBuffer, gtmYear1, gtmYears23);
  }

  /** With whole multiplied figures, rounding changes none of them. */
  lemma WholeBreakdown(b: Bases, n: ScenarioName, development: int, technical: int, riskBuffer: int, gtmYear1: int, gtmYears23: int)
    requires b.development as real * Config(n).devMultiplier == development as real
    requires development as real * (15.0 / 100.0) == technical as real
    requires development as real * (40.0 / 100.0) == riskBuffer as real
    requires b.gtmYear1 as real * Config(n).gtmMultiplier == gtmYear1 as real
    requires b.gtmYears23 as real * Config(n).gtmMultiplier == gtmYears23 as real
    ensures var d := ScenarioFor(b, n).breakdown;
      && d.development == development as real && d.technical == technical as real
      && d.regulatory == b.regulatory as real && d.riskBuffer == riskBuffer as real
      && d.gtmYear1 == gtmYear1 as real && d.gtm == gtmYear1 as real && d.gtmYears23 == gtmYears23 as real
      && d.total == (development + b.regulatory + gtmYear1 + riskBuffer) as real
      && ScenarioFor(b, n).total == d.total
  {
    RoundWhole(development);
    RoundWhole(technical);
    RoundWhole(riskBuffer);
    RoundWhole(b.regulatory);
    RoundWhole(gtmYear1);
    RoundWhole(gtmYears23);
    RoundWhole(development + b.regulatory + gtmYear1 + riskBuffer);
  }

  /** Location, team status and regulatory environment have no effect on any
      figure: only technology, stage and market are read. */
  lemma ContextIgnored(a: UserInputs, b: UserInputs)
    requires a.technologyType == b.technologyType
    requires a.currentStage == b.currentStage
    requires a.targetMarket == b.targetMarket
    ensures CalculateInvestment(a).scenarios == CalculateInvestment(b).scenarios
    ensures CalculateInvestment(a).confidenceInterval == CalculateInvestment(b).confidenceInterval
  {
    assert BasesOf(a) == BasesOf(b);
  }

  /** Break-even is taken on the stage's base months, not on the scenario's
      adjusted timeline; the timeline is the base months times the scenario's
      timeline multiplier. */
  lemma TimelineAndBreakEven(inputs: UserInputs, n: ScenarioName)
    ensures var s, c := ScenarioFor(BasesOf(inputs), n), Config(n);
      var months := StageTimeline(inputs.currentStage) as real;
      && s.timeline == Round(months * c.timelineMultiplier) as real
      && s.breakEven == Round(months * c.breakEvenMultiplier) as real
  {
  }

  /** Optimistic < Realistic < Conservative, for the total, the timeline and
      the break-even point alike. */
  lemma ScenariosOrdered(inputs: UserInputs)
    ensures var s := CalculateInvestment(inputs).scenarios;
      && s[0].total < s[1].total < s[2].total
      && s[0].timeline < s[1].timeline < s[2].timeline
      && s[0].breakEven < s[1].breakEven < s[2].breakEven
  {
    var b := BasesOf(inputs);
    BasesWhole(inputs);
    DevelopmentCostOrdered(inputs.technologyType);
    GtmCostOrdered(inputs.targetMarket);
    StageTimelineDecreasing();
    assert b.development > 0 && b.gtmYear1 > 0 && b.months >= 12;
    ScenarioFigures(b, Optimistic);
    ScenarioFigures(b, Realistic);
    ScenarioFigures(b, Conservative);
    assert Reconciles(b, Optimistic) && Reconciles(b, Realistic) && Reconciles(b, Conservative);
    MonthsOrdered(b.months);
  }

  /** For a stage of at least 12 months, rounding keeps the three timelines
      and the three break-even points strictly apart. */
  lemma MonthsOrdered(months: nat)
    requires months >= 12
    ensures Round(months as real * (75.0 / 100.0)) < Round(months as real) < Round(months as real * (15.0 / 10.0))
    ensures Round(months as real * (15.0 / 10.0)) < Round(months as real * (175.0 / 100.0)) < Round(months as real * (225.0 / 100.0))
  {
    var m := months as real;
    RoundWhole(months);
    assert m * (75.0 / 100.0) + 1.0 / 2.0 < m - 1.0 / 2.0 + 1.0;
  }

  /** Software/SaaS at the prototype stage for large enterprises:
      843,000 < 1,538,000 < 2,432,000, with 24 months in the realistic case. */
  lemma SaasPrototypeEnterpriseExample(inputs: UserInputs)
    requires inputs.technologyType == SoftwareSaas
    requires inputs.currentStage == Prototype
    requires inputs.targetMarket == LargeEnterprise
    ensures var r := CalculateInvestment(inputs);
      && r.scenarios[0].total == 843000.0
      && r.scenarios[1].total == 1538000.0
      && r.scenarios[2].total == 2432000.0
      && r.scenarios[1].timeline == 24.0
      && r.confidenceInterval == ConfidenceInterval(1307300.0, 1768700.0)
  {
    var b := BasesOf(inputs);
    assert b == Bases(350000, 50000, 750000, 4500000, 24);
    ScenarioFigures(b, Optimistic);
    ScenarioFigures(b, Realistic);
    ScenarioFigures(b, Conservative);
    RoundWhole(24);
    RoundWhole(1307300);
    RoundWhole(1768700);
  }

  // ---------------------------------------------------------------- staged funding

  const Phase1Name := "Phase 1: Validate"
  const Phase1Objective := "Proof of concept, initial customer validation, technical feasibility"
  const Phase1Milestone := "Technical milestone achieved"
  const Phase1Gate := "Technical milestone achieved?"
  const Phase2Name := "Phase 2: Build"
  const Phase2Objective := "Product development, market validation, initial sales"
  const Phase2Milestone := "Market traction confirmed"
  const Phase2Gate := "Market traction confirmed?"
  const Phase3Name := "Phase 3: Scale"
  const Phase3Objective := "Market expansion, team scaling, operations buildout"
  const Phase3Milestone := "Unit economics proven"
  const Phase3Gate := "Unit economics proven?"

  /** `calculateStagedFunding`: 15% and 35% of the Realistic total (rounded)
      and 20% and 40% of its timeline (rounded); the third phase takes what is
      left of both. Fails when no scenario is named Realistic. */
  function CalculateStagedFunding(results: CalculationResults): (r: Result<StagedFunding>)
    ensures r.Failure? <==> forall k :: 0 <= k < |results.scenarios| ==> results.scenarios[k].name != Realistic
  {
    var i := FindRealistic(results.scenarios);
    if i == |results.scenarios| then
      Failure("Realistic scenario not found")
    else
      var total := results.scenarios[i].total;
      var timeline := results.scenarios[i].timeline;
      var investment1 := Round(total * (15.0 / 100.0)) as real;
      var duration1 := Round(timeline * (20.0 / 100.0)) as real;
      var investment2 := Round(total * (35.0 / 100.0)) as real;
      var duration2 := Round(timeline * (40.0 / 100.0)) as real;
      Success(StagedFunding(
        [ FundingPhase(Phase1Name, investment1, duration1, 15, Phase1Objective, Phase1Milestone, Phase1Gate),
          FundingPhase(Phase2Name, investment2, duration2, 35, Phase2Objective, Phase2Milestone, Phase2Gate),
          FundingPhase(Phase3Name, total - investment1 - investment2, timeline - duration1 - duration2, 50, Phase3Objective, Phase3Milestone, Phase3Gate) ],
        total,
        timeline))
  }

  /** The first Realistic scenario's figures are split into three phases: the
      first two take 15% and 35% of its total (rounded) over 20% and 40% of its
      timeline (rounded), and the third takes what is left, so the investments
      add up exactly to the total and the durations to the timeline. The
      percentages are 15, 35 and 50. For a non-negative total and timeline no
      phase is negative. */
  lemma StagedFundingReconciles(results: CalculationResults)
    requires exists k :: 0 <= k < |results.scenarios| && results.scenarios[k].name == Realistic
    ensures var r := CalculateStagedFunding(results);
      var s := results.scenarios[FindRealistic(results.scenarios)];
      && r.Success?
      && |r.value.phases| == 3
      && r.value.phases[0].investment == Round(s.total * (15.0 / 100.0)) as real
      && r.value.phases[1].investment == Round(s.total * (35.0 / 100.0)) as real
      && r.value.phases[0].duration == Round(s.timeline * (20.0 / 100.0)) as real
      && r.value.phases[1].duration == Round(s.timeline * (40.0 / 100.0)) as real
      && r.value.phases[0].percentage == 15
      && r.value.phases[1].percentage == 35
      && r.value.phases[2].percentage == 50
      && r.value.totalInvestment == s.total
      && r.value.totalDuration == s.timeline
      && r.value.phases[0].investment + r.value.phases[1].investment + r.value.phases[2].investment == s.total
      && r.value.phases[0].duration + r.value.phases[1].duration + r.value.phases[2].duration == s.timeline
      && r.value.phases[0].percentage + r.value.phases[1].percentage + r.value.phases[2].percentage == 100
      && (s.total >= 0.0 ==> forall p :: 0 <= p < 3 ==> r.value.phases[p].investment >= 0.0)
      && (s.timeline >= 0.0 ==> forall p :: 0 <= p < 3 ==> r.value.phases[p].duration >= 0.0)
  {
    var i := FindRealistic(results.scenarios);
    assert i < |results.scenarios|;
    var s := results.scenarios[i];
    if s.total >= 0.0 {
      SplitRemainderNonNegative(s.total, s.total * (15.0 / 100.0), s.total * (35.0 / 100.0));
    }
    if s.timeline >= 0.0 {
      SplitRemainderNonNegative(s.timeline, s.timeline * (20.0 / 100.0), s.timeline * (40.0 / 100.0));
    }
  }

  /** Taking Round(ax) and Round(bx) out of x, where ax is at most a fifth
      and bx at most two fifths of x, leaves non-negative parts and a
      non-negative remainder. */
  lemma SplitRemainderNonNegative(x: real, ax: real, bx: real)
    requires 0.0 <= ax <= x / 5.0 && 0.0 <= bx <= 2.0 * x / 5.0
    ensures Round(ax) >= 0 && Round(bx) >= 0
    ensures x - Round(ax) as real - Round(bx) as real >= 0.0
  {
    RoundMonotone(0.0, ax);
    RoundMonotone(0.0, bx);
    if x < 5.0 / 2.0 {
      // the smaller share rounds to 0 and the larger one to at most 1
      assert Round(ax) == 0;
      assert Round(bx) <= 1;
      assert Round(bx) == 1 ==> bx + 1.0 / 2.0 >= 1.0;
    }
  }

  /** 1,538,000 over 24 months splits into 230,700 / 538,300 / 769,000
      over 5 / 10 / 9 months. */
  lemma StagedFundingExample(results: CalculationResults)
    requires |results.scenarios| == 3 && results.scenarios[0].name == Optimistic
    requires results.scenarios[1].name == Realistic
    requires results.scenarios[1].total == 1538000.0 && results.scenarios[1].timeline == 24.0
    ensures var r := CalculateStagedFunding(results);
      && r.Success?
      && r.value.phases[0].investment == 230700.0 && r.value.phases[0].duration == 5.0
      && r.value.phases[1].investment == 538300.0 && r.value.phases[1].duration == 10.0
      && r.value.phases[2].investment == 769000.0 && r.value.phases[2].duration == 9.0
  {
    StagedFundingReconciles(results);
    RoundWhole(230700);
    RoundWhole(538300);
    assert Round(24.0 * (20.0 / 100.0)) == 5;
    assert Round(24.0 * (40.0 / 100.0)) == 10;
  }
}
