/** The multiplier-aware estimation engine (src/utils/calculator.ts), reading
    the Vianeo coefficient file: team and location multipliers scale the
    costs, development includes the regulatory cost, the risk buffer is taken
    on that sum, money is never rounded, and break-even is taken on the
    rounded, adjusted timeline. */
module Calculator {
  import opened Common
  import opened Domain
  import Coefficients
  import opened ConfigCoefficients

  /** `GEOGRAPHIC_LOCATIONS.find(loc => loc.name === name)?.index || 1.0`:
      the index of the first entry so named, and 1.0 when no entry is so
      named (or, were there one, when its index is 0). */
  function LocationIndex(locations: seq<Coefficients.Location>, name: string): real
  {
    if locations == [] then 1.0
    else if locations[0].name == name then NonZeroOr(locations[0].index, 1.0)
    else LocationIndex(locations[1..], name)
  }

  /** `x || d` on a number: d when x is 0. */
  function NonZeroOr(x: real, d: real): (r: real)
    ensures x != 0.0 ==> r == x
    ensures x == 0.0 ==> r == d
  {
    if x != 0.0 then x else d
  }

  /** The first entry named `name` decides the index. */
  lemma {:induction false} LocationIndexFirst(locations: seq<Coefficients.Location>, name: string, k: nat)
    requires k < |locations| && locations[k].name == name
    requires forall j :: 0 <= j < k ==> locations[j].name != name
    ensures LocationIndex(locations, name) == NonZeroOr(locations[k].index, 1.0)
    decreases k
  {
    if k > 0 {
      assert locations[0].name != name;
      LocationIndexFirst(locations[1..], name, k - 1);
    }
  }

  /** A name no entry carries gets 1.0; otherwise the index is one of the
      listed indices or 1.0. */
  lemma {:induction false} LocationIndexRange(locations: seq<Coefficients.Location>, name: string)
    ensures (forall k :: 0 <= k < |locations| ==> locations[k].name != name) ==> LocationIndex(locations, name) == 1.0
    ensures LocationIndex(locations, name) == 1.0 || exists k :: 0 <= k < |locations| && LocationIndex(locations, name) == locations[k].index
    decreases |locations|
  {
    if locations != [] && locations[0].name != name {
      LocationIndexRange(locations[1..], name);
      if LocationIndex(locations, name) != 1.0 {
        var k :| 0 <= k < |locations[1..]| && LocationIndex(locations, name) == locations[1..][k].index;
        assert locations[k + 1] == locations[1..][k];
      }
      if forall k :: 0 <= k < |locations| ==> locations[k].name != name {
        assert forall k :: 0 <= k < |locations[1..]| ==> locations[1..][k] == locations[k + 1];
      }
    }
  }

  /** The location multiplier of the Vianeo coefficient table. */
  function GeoMultiplier(name: string): real
  {
    LocationIndex(GeographicLocations, name)
  }

  /** A listed location gets its own index; any other text gets 1.0. Either
      way the multiplier is positive. */
  lemma GeoMultiplierSpec(name: string)
    ensures GeoMultiplier(name) > 0.0
    ensures forall k :: 0 <= k < |GeographicLocations| && GeographicLocations[k].name == name ==>
      GeoMultiplier(name) == GeographicLocations[k].index
    ensures (forall k :: 0 <= k < |GeographicLocations| ==> GeographicLocations[k].name != name) ==>
      GeoMultiplier(name) == 1.0
  {
    GeographicLocationsWellFormed();
    LocationIndexRange(GeographicLocations, name);
    forall k | 0 <= k < |GeographicLocations| && GeographicLocations[k].name == name
      ensures GeoMultiplier(name) == GeographicLocations[k].index
    {
      LocationIndexFirst(GeographicLocations, name, k);
    }
  }

  /** The table values and multipliers one estimate reads. */
  datatype Bases = Bases(
    development: nat, regulatory: nat, gtmYear1: nat, gtmYears23: nat, months: nat,
    team: real, geo: real)

  function BasesOf(inputs: UserInputs): Bases
  {
    Bases(
      DevelopmentCost(inputs.technologyType, inputs.currentStage),
      RegulatoryCost(inputs.technologyType),
      GtmCost(inputs.targetMarket).year1,
      GtmCost(inputs.targetMarket).years23,
      DevelopmentMonths(inputs.currentStage),
      TeamMultiplier(inputs.teamStatus),
      GeoMultiplier(inputs.geographicLocation))
  }

  /** One scenario, with no rounding of money. */
  function ScenarioFor(b: Bases, n: ScenarioName): (s: Scenario)
    ensures s.name == n
  {
    var m := ScenarioModifiers(n);
    var technical := b.development as real * m.development * b.team * b.geo;
    var regulatory := b.regulatory as real * b.geo;
    var development := technical + regulatory;
    var gtmYear1 := b.gtmYear1 as real * m.gtm * b.geo;
    var riskBuffer := development * RiskBufferPercentage;
    var total := development + gtmYear1 + riskBuffer;
    var timeline := Round(b.months as real * m.timeline) as real;
    var breakEven := Round(timeline * m.breakEven) as real;
    Scenario(n, total, timeline, breakEven,
      CostBreakdown(development, technical, regulatory, gtmYear1, gtmYear1,
        b.gtmYears23 as real * b.geo, riskBuffer, total, breakEven))
  }

  /** `calculateInvestment`: Optimistic, Realistic, Conservative, and the
      unrounded 85% / 115% of the realistic total. */
  function CalculateInvestment(inputs: UserInputs): (r: CalculationResults)
    ensures |r.scenarios| == 3
    ensures r.scenarios[0].name == Optimistic && r.scenarios[1].name == Realistic && r.scenarios[2].name == Conservative
    ensures r.inputs == inputs
  {
    var b := BasesOf(inputs);
    var scenarios := [ScenarioFor(b, Optimistic), ScenarioFor(b, Realistic), ScenarioFor(b, Conservative)];
    var t := scenarios[1].total;
    CalculationResults(scenarios, ConfidenceInterval(t * (85.0 / 100.0), t * (115.0 / 100.0)), inputs)
  }

  /** The three scenarios are one computation over the same table values,
      told apart only by the modifiers of their name: each is the scenario
      its name gives on the inputs' bases, and the figures no scenario
      modifier reaches (regulatory cost, years 2-3 GTM) are equal in all three. */
  lemma Scenarios(inputs: UserInputs)
    ensures var s, b := CalculateInvestment(inputs).scenarios, BasesOf(inputs);
      && (forall k :: 0 <= k < |s| ==> s[k] == ScenarioFor(b, s[k].name))
      && s[0].breakdown.regulatory == s[1].breakdown.regulatory == s[2].breakdown.regulatory
      && s[0].breakdown.gtmYears23 == s[1].breakdown.gtmYears23 == s[2].breakdown.gtmYears23
  {
  }

  predicate PositiveBases(b: Bases)
  {
    b.development > 0 && b.gtmYear1 > 0 && b.months >= 12 && b.team >= 1.0 && b.geo > 0.0
  }

  lemma BasesPositive(inputs: UserInputs)
    ensures PositiveBases(BasesOf(inputs))
  {
    var b := BasesOf(inputs);
    assert b.development > 0 by {
      DevelopmentCostOrdered(inputs.technologyType);
    }
    assert b.gtmYear1 > 0 by {
      GtmCostOrdered(inputs.targetMarket);
    }
    assert b.geo > 0.0 by {
      GeoMultiplierSpec(inputs.geographicLocation);
    }
  }

  // ---------------------------------------------------------------- the scenario figures

  /** How the breakdown is built: the technical share is the base cost times
      the scenario, team and location multipliers; regulatory cost carries
      only the location multiplier; development is their sum; the risk buffer
      is 40% of that sum, so the total counts regulatory cost once at 140%:
      total = 1.4 technical + 1.4 regulatory + year-one GTM. The years 2-3
      GTM figure is the table value times the location index, the same in all
      three scenarios: no scenario multiplier reaches it. */
  lemma ScenarioFigures(b: Bases, n: ScenarioName)
    ensures var s, m := ScenarioFor(b, n), ScenarioModifiers(n);
      var d := s.breakdown;
      && d.technical == b.development as real * m.development * b.team * b.geo
      && d.regulatory == b.regulatory as real * b.geo
      && d.development == d.technical + d.regulatory
      && d.gtm == d.gtmYear1
      && d.gtmYear1 == b.gtmYear1 as real * m.gtm * b.geo
      && d.gtmYears23 == b.gtmYears23 as real * b.geo
      && d.riskBuffer == (2.0 / 5.0) * d.development
      && s.total == d.total
      && s.total == (7.0 / 5.0) * d.technical + (7.0 / 5.0) * d.regulatory + d.gtmYear1
  {
  }

  /** Break-even is taken on the rounded, adjusted timeline. */
  lemma BreakEvenFromTimeline(inputs: UserInputs, n: ScenarioName)
    ensures var s, m := ScenarioFor(BasesOf(inputs), n), ScenarioModifiers(n);
      && s.timeline == Round(DevelopmentMonths(inputs.currentStage) as real * m.timeline) as real
      && s.breakEven == Round(s.timeline * m.breakEven) as real
      && s.breakdown.breakEven == s.breakEven
  {
    ScheduleOf(BasesOf(inputs), n);
  }

  lemma ScheduleOf(b: Bases, n: ScenarioName)
    ensures var s, m := ScenarioFor(b, n), ScenarioModifiers(n);
      && s.timeline == Round(b.months as real * m.timeline) as real
      && s.breakEven == Round(s.timeline * m.breakEven) as real
      && s.breakdown.breakEven == s.breakEven
  {
  }

  /** Optimistic < Realistic < Conservative in total, timeline and break-even. */
  lemma ScenariosOrdered(inputs: UserInputs)
    ensures var s := CalculateInvestment(inputs).scenarios;
      && s[0].total < s[1].total < s[2].total
      && s[0].timeline < s[1].timeline < s[2].timeline
      && s[0].breakEven < s[1].breakEven < s[2].breakEven
  {
    Scenarios(inputs);
    BasesPositive(inputs);
    ScenariosOrderedFor(BasesOf(inputs));
  }

  lemma ScenariosOrderedFor(b: Bases)
    requires PositiveBases(b)
    ensures var o, r, c := ScenarioFor(b, Optimistic), ScenarioFor(b, Realistic), ScenarioFor(b, Conservative);
      && 0.0 < o.total < r.total < c.total
      && o.timeline < r.timeline < c.timeline
      && o.breakEven < r.breakEven < c.breakEven
  {
    var unit := b.development as real * b.team * b.geo;
    var year1 := b.gtmYear1 as real * b.geo;
    assert unit > 0.0 && year1 > 0.0 by {
      PositiveProduct(b.development as real, b.team, b.geo);
      PositiveProduct(b.gtmYear1 as real, 1.0, b.geo);
    }
    assert b.regulatory as real * b.geo >= 0.0;
    TotalIn(b, Optimistic, unit, year1);
    TotalIn(b, Realistic, unit, year1);
    TotalIn(b, Conservative, unit, year1);
    TimelinesOrdered(b.months);
  }

  lemma PositiveProduct(x: real, y: real, z: real)
    requires x > 0.0 && y > 0.0 && z > 0.0
    ensures x * y * z > 0.0
  {
    assert x * y > 0.0;
  }

  /** The total as a linear function of the scenario's two multipliers. */
  lemma TotalIn(b: Bases, n: ScenarioName, unit: real, year1: real)
    requires unit == b.development as real * b.team * b.geo && year1 == b.gtmYear1 as real * b.geo
    ensures var m := ScenarioModifiers(n);
      ScenarioFor(b, n).total == (7.0 / 5.0) * (m.development * unit + b.regulatory as real * b.geo) + m.gtm * year1
  {
    var m := ScenarioModifiers(n);
    assert b.development as real * m.development * b.team * b.geo == m.development * unit;
    assert b.gtmYear1 as real * m.gtm * b.geo == m.gtm * year1;
  }

  /** For a stage of at least 12 months the rounded timelines and break-even
      points of the three scenarios are strictly apart. */
  lemma TimelinesOrdered(months: nat)
    requires months >= 12
    ensures var m := months as real;
      && Round(m * (75.0 / 100.0)) < Round(m * 1.0) < Round(m * (15.0 / 10.0))
      && Round(Round(m * (75.0 / 100.0)) as real * (15.0 / 10.0))
         < Round(Round(m * 1.0) as real * (175.0 / 100.0))
         < Round(Round(m * (15.0 / 10.0)) as real * (225.0 / 100.0))
  {
    var m := months as real;
    RoundWhole(months);
    var o, r, c := Round(m * (75.0 / 100.0)), Round(m * 1.0), Round(m * (15.0 / 10.0));
    assert o < r < c;
    RoundMonotone(o as real * (15.0 / 10.0), r as real * (15.0 / 10.0));
    RoundMonotone(r as real * (175.0 / 100.0), c as real * (175.0 / 100.0));
  }

  /** With everything else equal, a larger team multiplier gives a larger
      total in every scenario. */
  lemma TeamRaisesCostFor(b: Bases, n: ScenarioName, team1: real, team2: real)
    requires PositiveBases(b) && team1 > team2
    ensures ScenarioFor(b.(team := team1), n).total > ScenarioFor(b.(team := team2), n).total
  {
    var m := ScenarioModifiers(n);
    var dm := b.development as real * m.development;
    assert dm > 0.0;
    TechnicalGrows(dm, b.geo, team1, team2);
    ScenarioFigures(b.(team := team1), n);
    ScenarioFigures(b.(team := team2), n);
  }

  lemma TechnicalGrows(dm: real, geo: real, team1: real, team2: real)
    requires dm > 0.0 && geo > 0.0 && team1 > team2
    ensures dm * team1 * geo > dm * team2 * geo
  {
    assert dm * team1 > dm * team2;
  }

  /** A less complete team never makes an estimate cheaper: with everything
      else equal, no team > partial team > full team in every scenario. */
  lemma TeamRaisesCost(inputs: UserInputs, n: ScenarioName)
    ensures var none := ScenarioFor(BasesOf(inputs.(teamStatus := NoTeamYet)), n).total;
      var partial := ScenarioFor(BasesOf(inputs.(teamStatus := PartialTeam)), n).total;
      var full := ScenarioFor(BasesOf(inputs.(teamStatus := FullTeam)), n).total;
      none > partial > full
  {
    var b := BasesOf(inputs);
    BasesPositive(inputs);
    TeamMultiplierOrdered();
    assert BasesOf(inputs.(teamStatus := NoTeamYet)) == b.(team := 1.3);
    assert BasesOf(inputs.(teamStatus := PartialTeam)) == b.(team := 1.1);
    assert BasesOf(inputs.(teamStatus := FullTeam)) == b.(team := 1.0);
    TeamRaisesCostFor(b, n, 1.3, 1.1);
    TeamRaisesCostFor(b, n, 1.1, 1.0);
  }

  /** Every money figure is proportional to the location index: an estimate
      is the index times the same estimate at index 1.0. */
  lemma GeoScales(b: Bases, n: ScenarioName)
    ensures var s, u := ScenarioFor(b, n), ScenarioFor(b.(geo := 1.0), n);
      && s.total == b.geo * u.total
      && s.breakdown.development == b.geo * u.breakdown.development
      && s.breakdown.gtmYear1 == b.geo * u.breakdown.gtmYear1
      && s.breakdown.gtmYears23 == b.geo * u.breakdown.gtmYears23
      && s.timeline == u.timeline && s.breakEven == u.breakEven
  {
    var m := ScenarioModifiers(n);
    var t := b.development as real * m.development * b.team;
    var r := b.regulatory as real;
    var y := b.gtmYear1 as real * m.gtm;
    ScenarioFigures(b, n);
    ScenarioFigures(b.(geo := 1.0), n);
    ScaleByGeo(b.geo, t, r, y);
    ScaleByGeo(1.0, t, r, y);
  }

  /** The total as built from geo-scaled technical, regulatory and
      year-one amounts is the geo multiple of the unscaled total. */
  lemma ScaleByGeo(g: real, t: real, r: real, y: real)
    ensures (t * g + r * g) + y * g + (t * g + r * g) * RiskBufferPercentage
      == g * ((t + r) + y + (t + r) * RiskBufferPercentage)
    ensures t * g + r * g == g * (t + r)
  {
  }

  /** The confidence interval is exactly 85% and 115% of the realistic total,
      which lies between them. */
  lemma ConfidenceIntervalExact(inputs: UserInputs)
    ensures var r := CalculateInvestment(inputs);
      && r.confidenceInterval.min == (85.0 / 100.0) * r.scenarios[1].total
      && r.confidenceInterval.max == (115.0 / 100.0) * r.scenarios[1].total
      && r.confidenceInterval.min <= r.scenarios[1].total <= r.confidenceInterval.max
  {
    Scenarios(inputs);
    BasesPositive(inputs);
    ScenariosOrderedFor(BasesOf(inputs));
  }

  // ---------------------------------------------------------------- staged funding

  const Phase1Name := "Phase 1: Validate"
  const Phase1Objective := "Proof of concept and initial customer validation"
  const Phase1Milestone := "Technical feasibility confirmed, clear market need identified"
  const Phase1Gate := "Technical milestone achieved?"
  const Phase2Name := "Phase 2: Build"
  const Phase2Objective := "Product development and market validation"
  const Phase2Milestone := "Product meets quality standards, positive customer feedback"
  const Phase2Gate := "Market traction confirmed?"
  const Phase3Name := "Phase 3: Scale"
  const Phase3Objective := "Market expansion and team scaling"
  const Phase3Milestone := "Sustainable unit economics, repeatable sales process"
  const Phase3Gate := "Unit economics proven?"

  /** `calculateStagedFunding(realisticScenario)`: 15%, 35% and 50% of the
      total over 6 months, 12 months and the rest of the timeline (at least 12). */
  function CalculateStagedFunding(realistic: Scenario): (r: StagedFunding)
    ensures |r.phases| == 3
  {
    var total := realistic.total;
    var duration3 := RealMax(12.0, realistic.timeline - 6.0 - 12.0);
    StagedFunding(
      [ FundingPhase(Phase1Name, total * (15.0 / 100.0), 6.0, 15, Phase1Objective, Phase1Milestone, Phase1Gate),
        FundingPhase(Phase2Name, total * (35.0 / 100.0), 12.0, 35, Phase2Objective, Phase2Milestone, Phase2Gate),
        FundingPhase(Phase3Name, total * (50.0 / 100.0), duration3, 50, Phase3Objective, Phase3Milestone, Phase3Gate) ],
      total,
      6.0 + 12.0 + duration3)
  }

  /** The investments are exactly 15/35/50% of the total and add up to it;
      the phases last 6 months, 12 months and the rest of the timeline but at
      least 12, so the plan lasts the scenario's timeline, but never less than
      30 months. */
  lemma StagedFundingReconciles(realistic: Scenario)
    ensures var f := CalculateStagedFunding(realistic);
      && f.phases[0].investment + f.phases[1].investment + f.phases[2].investment == realistic.total
      && f.phases[0].investment == (15.0 / 100.0) * realistic.total
      && f.phases[1].investment == (35.0 / 100.0) * realistic.total
      && f.phases[2].investment == (50.0 / 100.0) * realistic.total
      && f.phases[0].percentage == 15 && f.phases[1].percentage == 35 && f.phases[2].percentage == 50
      && f.phases[0].percentage + f.phases[1].percentage + f.phases[2].percentage == 100
      && f.phases[0].duration == 6.0
      && f.phases[1].duration == 12.0
      && f.phases[2].duration == RealMax(12.0, realistic.timeline - 18.0)
      && f.totalInvestment == realistic.total
      && f.phases[0].duration + f.phases[1].duration + f.phases[2].duration == f.totalDuration
      && f.totalDuration == RealMax(30.0, realistic.timeline)
  {
  }

  /** Every stage takes at most 30 months, so the plan for the realistic
      scenario of any estimate lasts exactly 30 months. */
  lemma StagedFundingThirtyMonths(inputs: UserInputs)
    ensures CalculateStagedFunding(CalculateInvestment(inputs).scenarios[1]).totalDuration == 30.0
  {
    var months := DevelopmentMonths(inputs.currentStage);
    assert months <= 30;
    RoundWhole(months);
    StagedFundingReconciles(CalculateInvestment(inputs).scenarios[1]);
  }
}
