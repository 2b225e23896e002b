/** How the two estimation engines relate. They read the same cost tables;
    where the detailed engine's team and location multipliers are neutral
    (a full team, a location index of 1.0) its totals exceed the simple
    engine's by exactly 40% of the regulatory cost, the risk buffer it also
    takes on regulatory cost. Their break-even points differ because one
    takes them on the base months and the other on the rounded, adjusted
    timeline. */
module EngineComparison {
  import opened Common
  import opened Domain
  import Coefficients
  import ConfigCoefficients
  import Calculations
  import Calculator
  import NeedsMatrix

  /** Both engines use the same scenario multipliers for development,
      go-to-market, timeline and break-even. */
  lemma SameScenarioMultipliers(n: ScenarioName)
    ensures var c, m := Calculations.Config(n), ConfigCoefficients.ScenarioModifiers(n);
      c.devMultiplier == m.development && c.gtmMultiplier == m.gtm
      && c.timelineMultiplier == m.timeline && c.breakEvenMultiplier == m.breakEven
  {
  }

  /** With a full team and a location index of 1.0, the detailed engine's
      total is the simple engine's plus 40% of the regulatory cost. */
  lemma NeutralMultipliersDifference(inputs: UserInputs, n: ScenarioName)
    requires inputs.teamStatus == FullTeam
    requires Calculator.GeoMultiplier(inputs.geographicLocation) == 1.0
    ensures Calculator.ScenarioFor(Calculator.BasesOf(inputs), n).total
      == Calculations.ScenarioFor(Calculations.BasesOf(inputs), n).total
         + (2.0 / 5.0) * Coefficients.RegulatoryCost(inputs.technologyType) as real
  {
    var b1 := Calculations.BasesOf(inputs);
    var b2 := Calculator.BasesOf(inputs);
    ConfigCoefficients.SameCostTables(inputs.technologyType, inputs.currentStage, inputs.targetMarket);
    assert b2 == Calculator.Bases(b1.development, b1.regulatory, b1.gtmYear1, b1.gtmYears23, b1.months, 1.0, 1.0);
    Calculations.BasesWhole(inputs);
    NeutralDifference(b1, n);
  }

  lemma NeutralDifference(b1: Calculations.Bases, n: ScenarioName)
    requires Calculations.WholeBases(b1)
    ensures var b2 := Calculator.Bases(b1.development, b1.regulatory, b1.gtmYear1, b1.gtmYears23, b1.months, 1.0, 1.0);
      Calculator.ScenarioFor(b2, n).total
      == Calculations.ScenarioFor(b1, n).total + (2.0 / 5.0) * b1.regulatory as real
  {
    var b2 := Calculator.Bases(b1.development, b1.regulatory, b1.gtmYear1, b1.gtmYears23, b1.months, 1.0, 1.0);
    Calculations.ScenarioFigures(b1, n);
    Calculator.ScenarioFigures(b2, n);
    SameScenarioMultipliers(n);
    var m := ConfigCoefficients.ScenarioModifiers(n);
    assert b2.development as real * m.development * b2.team * b2.geo == b1.development as real * m.development;
    assert b2.gtmYear1 as real * m.gtm * b2.geo == b1.gtmYear1 as real * m.gtm;
  }

  /** At the concept stage the optimistic break-even point is 45 months in
      the simple engine (1.5 x 30 base months) but 35 in the detailed one
      (1.5 x 23, the rounded 22.5-month timeline, rounded). */
  lemma BreakEvenDiffers(inputs: UserInputs)
    requires inputs.currentStage == Concept
    ensures Calculations.ScenarioFor(Calculations.BasesOf(inputs), Optimistic).breakEven == 45.0
    ensures Calculator.ScenarioFor(Calculator.BasesOf(inputs), Optimistic).breakEven == 35.0
  {
    assert Calculations.BasesOf(inputs).months == 30;
    assert Calculator.BasesOf(inputs).months == 30;
    assert Round(30.0 * (75.0 / 100.0)) == 23;
    assert Round(30.0 * (15.0 / 10.0)) == 45;
    assert Round(23.0 * (15.0 / 10.0)) == 35;
  }

  /** The estimators' own results always name a Realistic second scenario,
      so a needs-matrix cell cost is always found, from that scenario. */
  lemma SimpleEngineCellCost(inputs: UserInputs)
    ensures var results := Calculations.CalculateInvestment(inputs);
      NeedsMatrix.RealisticOf(results.scenarios) == Some(results.scenarios[1])
  {
    var results := Calculations.CalculateInvestment(inputs);
    assert results.scenarios[0].name == Calculations.ScenarioOrder[0];
    assert results.scenarios[1].name == Calculations.ScenarioOrder[1];
  }

  lemma DetailedEngineCellCost(inputs: UserInputs)
    ensures var results := Calculator.CalculateInvestment(inputs);
      NeedsMatrix.RealisticOf(results.scenarios) == Some(results.scenarios[1])
  {
    var results := Calculator.CalculateInvestment(inputs);
    assert results.scenarios[0].name == Optimistic;
  }
}
