/** The coefficient file of the Vianeo investment calculator
    (src/config/coefficients.ts of the Vianeo tool), read by the detailed
    engine: the same cost tables as the simple engine plus a sales cycle per
    market, team multipliers, a different list of locations, the scenario
    modifiers and the risk-buffer share. */
module ConfigCoefficients {
  import opened Domain
  import Coefficients

  /** GTM_COSTS entry: year-one and years 2-3 cost, and the typical sales cycle. */
  datatype GtmProfile = GtmProfile(year1: nat, years23: nat, salesCycle: string)

  /** The four multipliers one scenario applies. */
  datatype Modifiers = Modifiers(development: real, gtm: real, timeline: real, breakEven: real)

  function DevelopmentCost(t: Technology, s: Stage): (c: nat)
  {
    match t
    case SoftwareSaas => Coefficients.StageCost(s, 200000, 350000, 500000, 150000)
    case AiMachineLearning => Coefficients.StageCost(s, 250000, 400000, 600000, 200000)
    case FinTech => Coefficients.StageCost(s, 300000, 500000, 700000, 250000)
    case EdTech => Coefficients.StageCost(s, 200000, 350000, 500000, 150000)
    case BlockchainWeb3 => Coefficients.StageCost(s, 300000, 450000, 650000, 200000)
    case BiotechPharma => Coefficients.StageCost(s, 800000, 2000000, 3500000, 500000)
    case MedicalDevices => Coefficients.StageCost(s, 700000, 1500000, 2500000, 400000)
    case Diagnostics => Coefficients.StageCost(s, 600000, 1200000, 2000000, 350000)
    case DigitalHealth => Coefficients.StageCost(s, 350000, 600000, 900000, 250000)
    case SyntheticBiology => Coefficients.StageCost(s, 900000, 2200000, 4000000, 600000)
    case HardwareProduct => Coefficients.StageCost(s, 400000, 750000, 1200000, 300000)
    case Robotics => Coefficients.StageCost(s, 600000, 1200000, 2000000, 400000)
    case IoT => Coefficients.StageCost(s, 350000, 650000, 1000000, 250000)
    case Semiconductors => Coefficients.StageCost(s, 1000000, 2500000, 4500000, 700000)
    case AdvancedMaterials => Coefficients.StageCost(s, 700000, 1500000, 2500000, 450000)
    case CleanEnergy => Coefficients.StageCost(s, 600000, 1500000, 2500000, 400000)
    case ClimateTech => Coefficients.StageCost(s, 500000, 1100000, 1800000, 350000)
    case WaterTech => Coefficients.StageCost(s, 500000, 1000000, 1700000, 300000)
    case Nuclear => Coefficients.StageCost(s, 1200000, 3000000, 5000000, 800000)
    case AgriTech => Coefficients.StageCost(s, 400000, 800000, 1300000, 250000)
    case FoodTech => Coefficients.StageCost(s, 500000, 1000000, 1600000, 300000)
    case Aquaculture => Coefficients.StageCost(s, 500000, 1000000, 1700000, 300000)
    case Aerospace => Coefficients.StageCost(s, 1000000, 2500000, 4000000, 700000)
    case SpaceTech => Coefficients.StageCost(s, 1200000, 3000000, 5000000, 800000)
    case Construction => Coefficients.StageCost(s, 400000, 800000, 1300000, 250000)
    case SupplyChain => Coefficients.StageCost(s, 350000, 650000, 1000000, 200000)
    case AdvancedManufacturing => Coefficients.StageCost(s, 600000, 1300000, 2200000, 400000)
  }

  function RegulatoryCost(t: Technology): (c: nat)
  {
    match t
    case SoftwareSaas => 50000
    case AiMachineLearning => 75000
    case FinTech => 200000
    case EdTech => 50000
    case BlockchainWeb3 => 150000
    case BiotechPharma => 2500000
    case MedicalDevices => 1500000
    case Diagnostics => 1200000
    case DigitalHealth => 400000
    case SyntheticBiology => 2800000
    case HardwareProduct => 200000
    case Robotics => 300000
    case IoT => 150000
    case Semiconductors => 400000
    case AdvancedMaterials => 350000
    case CleanEnergy => 500000
    case ClimateTech => 300000
    case WaterTech => 350000
    case Nuclear => 3000000
    case AgriTech => 250000
    case FoodTech => 400000
    case Aquaculture => 350000
    case Aerospace => 1500000
    case SpaceTech => 2000000
    case Construction => 200000
    case SupplyChain => 150000
    case AdvancedManufacturing => 300000
  }

  function GtmCost(m: Market): (c: GtmProfile)
  {
    match m
    case LargeEnterprise => GtmProfile(750000, 4500000, "9-18 months")
    case MidMarketB2B => GtmProfile(550000, 3200000, "6-12 months")
    case SmallBusinessB2B => GtmProfile(450000, 2500000, "3-6 months")
    case FederalGovernment => GtmProfile(900000, 4800000, "12-24 months")
    case StateLocalGovernment => GtmProfile(650000, 3500000, "9-18 months")
    case MilitaryDefense => GtmProfile(1000000, 5200000, "18-36 months")
    case InternationalGov => GtmProfile(850000, 4600000, "12-24 months")
    case HospitalSystems => GtmProfile(800000, 4200000, "12-18 months")
    case PharmaCompanies => GtmProfile(850000, 4500000, "12-24 months")
    case InsurancePayers => GtmProfile(750000, 4000000, "12-18 months")
    case IndividualProviders => GtmProfile(500000, 2800000, "6-12 months")
    case ResearchInstitutions => GtmProfile(550000, 3000000, "6-12 months")
    case Universities => GtmProfile(500000, 2800000, "6-12 months")
    case K12Education => GtmProfile(400000, 2200000, "6-18 months")
    case MassMarketConsumer => GtmProfile(700000, 5000000, "Immediate")
    case PremiumConsumer => GtmProfile(600000, 3800000, "1-3 months")
    case ProsumerMarket => GtmProfile(450000, 2600000, "1-2 months")
    case FinancialServices => GtmProfile(800000, 4300000, "12-18 months")
    case EnergyUtilities => GtmProfile(750000, 4000000, "12-24 months")
    case ManufacturingIndustrial => GtmProfile(600000, 3400000, "9-15 months")
    case AgricultureFood => GtmProfile(500000, 2800000, "6-12 months")
    case RealEstate => GtmProfile(550000, 3000000, "6-15 months")
    case NonProfit => GtmProfile(350000, 1800000, "6-12 months")
    case SocialEnterprises => GtmProfile(400000, 2200000, "6-12 months")
    case Foundations => GtmProfile(450000, 2400000, "6-15 months")
    case DevelopmentOrgs => GtmProfile(500000, 2600000, "9-18 months")
    case TwoSidedMarketplace => GtmProfile(800000, 5500000, "6-18 months")
    case MultiSidedPlatform => GtmProfile(850000, 5800000, "6-18 months")
    case NetworkEffects => GtmProfile(750000, 5200000, "6-18 months")
    case EmergingMarkets => GtmProfile(450000, 2800000, "6-18 months")
    case GlobalMultiRegion => GtmProfile(950000, 5500000, "12-24 months")
  }

  const GeographicLocations: seq<Coefficients.Location> := [
    Coefficients.Location("Bay Area (San Francisco)", 1.35),
    Coefficients.Location("New York City", 1.30),
    Coefficients.Location("Seattle", 1.25),
    Coefficients.Location("Boston", 1.22),
    Coefficients.Location("Los Angeles", 1.20),
    Coefficients.Location("Austin", 1.05),
    Coefficients.Location("Denver", 1.03),
    Coefficients.Location("Remote US", 1.00),
    Coefficients.Location("Chicago", 0.98),
    Coefficients.Location("Atlanta", 0.95),
    Coefficients.Location("Miami", 0.92),
    Coefficients.Location("Toronto", 0.88),
    Coefficients.Location("London", 1.15),
    Coefficients.Location("Berlin", 0.85),
    Coefficients.Location("Singapore", 1.10),
    Coefficients.Location("Tel Aviv", 1.05),
    Coefficients.Location("S\U{00C3}\U{00A3}o Paulo", 0.65),
    Coefficients.Location("Bangalore", 0.45),
    Coefficients.Location("Warsaw", 0.55),
    Coefficients.Location("Cape Town", 0.50)
  ]

  function DevelopmentMonths(s: Stage): (months: nat)
  {
    match s
    case Concept => 30
    case Prototype => 24
    case Pilot => 18
    case MarketReady => 12
  }

  function TeamMultiplier(t: TeamStatus): (m: real)
  {
    match t
    case NoTeamYet => 1.3
    case PartialTeam => 1.1
    case FullTeam => 1.0
  }

  function ScenarioModifiers(n: ScenarioName): (m: Modifiers)
  {
    match n
    case Optimistic => Modifiers(0.7, 0.6, 0.75, 1.5)
    case Realistic => Modifiers(1.2, 1.2, 1.0, 1.75)
    case Conservative => Modifiers(1.8, 2.0, 1.5, 2.25)
  }

  /** Share of the development cost held back as a risk buffer. */
  const RiskBufferPercentage: real := 0.40

  /** Yearly team cost; declared in the file but read by neither engine. */
  const AnnualTeamCosts: nat := 900000

  // ---------------------------------------------------------------- properties of the tables

  /** The development, regulatory and year-one / years 2-3 go-to-market figures
      are the same numbers as in the simple engine's tables. */
  lemma SameCostTables(t: Technology, s: Stage, m: Market)
    ensures DevelopmentCost(t, s) == Coefficients.DevelopmentCost(t, s)
    ensures RegulatoryCost(t) == Coefficients.RegulatoryCost(t)
    ensures GtmCost(m).year1 == Coefficients.GtmCost(m).year1
    ensures GtmCost(m).years23 == Coefficients.GtmCost(m).years23
    ensures DevelopmentMonths(s) == Coefficients.StageTimeline(s)
  {
  }

  /** Every technology has a cost at every stage, ordered
      Market Ready < Concept < Prototype < Pilot. */
  lemma DevelopmentCostOrdered(t: Technology)
    ensures 0 < DevelopmentCost(t, MarketReady) < DevelopmentCost(t, Concept)
    ensures DevelopmentCost(t, Concept) < DevelopmentCost(t, Prototype) < DevelopmentCost(t, Pilot)
  {
  }

  /** Every technology has a positive regulatory cost. */
  lemma RegulatoryCostPositive(t: Technology)
    ensures RegulatoryCost(t) > 0
  {
  }

  /** For every market the year-one cost is positive and below the years 2-3 cost. */
  lemma GtmCostOrdered(m: Market)
    ensures 0 < GtmCost(m).year1 < GtmCost(m).years23
  {
  }

  /** The stage timelines are 30, 24, 18 and 12 months. */
  lemma DevelopmentMonthsValues()
    ensures DevelopmentMonths(Concept) == 30 && DevelopmentMonths(Prototype) == 24
    ensures DevelopmentMonths(Pilot) == 18 && DevelopmentMonths(MarketReady) == 12
  {
  }

  /** Every market states a sales cycle. */
  lemma SalesCycleStated(m: Market)
    ensures GtmCost(m).salesCycle != []
  {
  }

  /** A missing team costs more: 1.3 > 1.1 > 1.0, and no multiplier discounts. */
  lemma TeamMultiplierOrdered()
    ensures TeamMultiplier(NoTeamYet) > TeamMultiplier(PartialTeam) > TeamMultiplier(FullTeam) == 1.0
  {
  }

  /** Every modifier grows from the optimistic to the realistic to the conservative case. */
  lemma ScenarioModifiersOrdered()
    ensures var o, r, c := ScenarioModifiers(Optimistic), ScenarioModifiers(Realistic), ScenarioModifiers(Conservative);
      o.development < r.development < c.development
      && o.gtm < r.gtm < c.gtm
      && o.timeline < r.timeline < c.timeline
      && o.breakEven < r.breakEven < c.breakEven
  {
  }

  /** Location names are pairwise distinct, every index is positive, and
      'Remote US' is the neutral index 1.00. */
  lemma GeographicLocationsWellFormed()
    ensures forall i, j :: 0 <= i < j < |GeographicLocations| ==> GeographicLocations[i].name != GeographicLocations[j].name
    ensures forall i :: 0 <= i < |GeographicLocations| ==> GeographicLocations[i].index > 0.0
    ensures Coefficients.Location("Remote US", 1.0) in GeographicLocations
  {
    assert GeographicLocations[7] == Coefficients.Location("Remote US", 1.0);
  }

  /** Of the place names the Vianeo mapper emits, 'Austin', 'London' and
      'Remote US' are listed, while 'Bay Area' and 'New York' are not. */
  lemma MapperLocationNames()
    ensures exists i :: 0 <= i < |GeographicLocations| && GeographicLocations[i].name == "Austin"
    ensures exists i :: 0 <= i < |GeographicLocations| && GeographicLocations[i].name == "London"
    ensures forall i :: 0 <= i < |GeographicLocations| ==> GeographicLocations[i].name != "Bay Area"
    ensures forall i :: 0 <= i < |GeographicLocations| ==> GeographicLocations[i].name != "New York"
  {
    assert GeographicLocations[5].name == "Austin";
    assert GeographicLocations[12].name == "London";
  }
}
