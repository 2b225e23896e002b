/** The cost tables of the simple estimation engine (src/utils/coefficients.ts):
    development cost by technology and stage, regulatory cost by technology,
    go-to-market cost by market, baseline months by stage, the location cost
    indices, and the display groups of technologies and markets. */
module Coefficients {
  import opened Domain

  datatype GtmCosts = GtmCosts(year1: nat, years23: nat)

  datatype Location = Location(name: string, index: real)

  /** A display group: a heading and the keys listed under it. */
  datatype Group<T> = Group(name: string, members: seq<T>)

  /** One row of DEVELOPMENT_COSTS, indexed by stage. */
  function StageCost(s: Stage, concept: nat, prototype: nat, pilot: nat, marketReady: nat): nat
  {
    match s
    case Concept => concept
    case Prototype => prototype
    case Pilot => pilot
    case MarketReady => marketReady
  }

  function DevelopmentCost(t: Technology, s: Stage): (c: nat)
  {
    match t
    case SoftwareSaas => StageCost(s, 200000, 350000, 500000, 150000)
    case AiMachineLearning => StageCost(s, 250000, 400000, 600000, 200000)
    case FinTech => StageCost(s, 300000, 500000, 700000, 250000)
    case EdTech => StageCost(s, 200000, 350000, 500000, 150000)
    case BlockchainWeb3 => StageCost(s, 300000, 450000, 650000, 200000)
    case BiotechPharma => StageCost(s, 800000, 2000000, 3500000, 500000)
    case MedicalDevices => StageCost(s, 700000, 1500000, 2500000, 400000)
    case Diagnostics => StageCost(s, 600000, 1200000, 2000000, 350000)
    case DigitalHealth => StageCost(s, 350000, 600000, 900000, 250000)
    case SyntheticBiology => StageCost(s, 900000, 2200000, 4000000, 600000)
    case HardwareProduct => StageCost(s, 400000, 750000, 1200000, 300000)
    case Robotics => StageCost(s, 600000, 1200000, 2000000, 400000)
    case IoT => StageCost(s, 350000, 650000, 1000000, 250000)
    case Semiconductors => StageCost(s, 1000000, 2500000, 4500000, 700000)
    case AdvancedMaterials => StageCost(s, 700000, 1500000, 2500000, 450000)
    case CleanEnergy => StageCost(s, 600000, 1500000, 2500000, 400000)
    case ClimateTech => StageCost(s, 500000, 1100000, 1800000, 350000)
    case WaterTech => StageCost(s, 500000, 1000000, 1700000, 300000)
    case Nuclear => StageCost(s, 1200000, 3000000, 5000000, 800000)
    case AgriTech => StageCost(s, 400000, 800000, 1300000, 250000)
    case FoodTech => StageCost(s, 500000, 1000000, 1600000, 300000)
    case Aquaculture => StageCost(s, 500000, 1000000, 1700000, 300000)
    case Aerospace => StageCost(s, 1000000, 2500000, 4000000, 700000)
    case SpaceTech => StageCost(s, 1200000, 3000000, 5000000, 800000)
    case Construction => StageCost(s, 400000, 800000, 1300000, 250000)
    case SupplyChain => StageCost(s, 350000, 650000, 1000000, 200000)
    case AdvancedManufacturing => StageCost(s, 600000, 1300000, 2200000, 400000)
  }

  function RegulatoryCost(t: Technology): (c: nat)
  {
    match t
    case SoftwareSaas => 50000
    case AiMachineLearning => 75000
    case FinTech => 200000
    case EdTech => 50000
    case BlockchainWeb3 => 150000
    case BiotechPharma => 2500000
    case MedicalDevices => 1500000
    case Diagnostics => 1200000
    case DigitalHealth => 400000
    case SyntheticBiology => 2800000
    case HardwareProduct => 200000
    case Robotics => 300000
    case IoT => 150000
    case Semiconductors => 400000
    case AdvancedMaterials => 350000
    case CleanEnergy => 500000
    case ClimateTech => 300000
    case WaterTech => 350000
    case Nuclear => 3000000
    case AgriTech => 250000
    case FoodTech => 400000
    case Aquaculture => 350000
    case Aerospace => 1500000
    case SpaceTech => 2000000
    case Construction => 200000
    case SupplyChain => 150000
    case AdvancedManufacturing => 300000
  }

  function GtmCost(m: Market): (c: GtmCosts)
  {
    match m
    case LargeEnterprise => GtmCosts(750000, 4500000)
    case MidMarketB2B => GtmCosts(550000, 3200000)
    case SmallBusinessB2B => GtmCosts(450000, 2500000)
    case FederalGovernment => GtmCosts(900000, 4800000)
    case StateLocalGovernment => GtmCosts(650000, 3500000)
    case MilitaryDefense => GtmCosts(1000000, 5200000)
    case InternationalGov => GtmCosts(850000, 4600000)
    case HospitalSystems => GtmCosts(800000, 4200000)
    case PharmaCompanies => GtmCosts(850000, 4500000)
    case InsurancePayers => GtmCosts(750000, 4000000)
    case IndividualProviders => GtmCosts(500000, 2800000)
    case ResearchInstitutions => GtmCosts(550000, 3000000)
    case Universities => GtmCosts(500000, 2800000)
    case K12Education => GtmCosts(400000, 2200000)
    case MassMarketConsumer => GtmCosts(700000, 5000000)
    case PremiumConsumer => GtmCosts(600000, 3800000)
    case ProsumerMarket => GtmCosts(450000, 2600000)
    case FinancialServices => GtmCosts(800000, 4300000)
    case EnergyUtilities => GtmCosts(750000, 4000000)
    case ManufacturingIndustrial => GtmCosts(600000, 3400000)
    case AgricultureFood => GtmCosts(500000, 2800000)
    case RealEstate => GtmCosts(550000, 3000000)
    case NonProfit => GtmCosts(350000, 1800000)
    case SocialEnterprises => GtmCosts(400000, 2200000)
    case Foundations => GtmCosts(450000, 2400000)
    case DevelopmentOrgs => GtmCosts(500000, 2600000)
    case TwoSidedMarketplace => GtmCosts(800000, 5500000)
    case MultiSidedPlatform => GtmCosts(850000, 5800000)
    case NetworkEffects => GtmCosts(750000, 5200000)
    case EmergingMarkets => GtmCosts(450000, 2800000)
    case GlobalMultiRegion => GtmCosts(950000, 5500000)
  }

  const GeographicLocations: seq<Location> := [
    Location("San Francisco Bay Area", 1.35),
    Location("New York City", 1.32),
    Location("Boston", 1.28),
    Location("Seattle", 1.25),
    Location("Los Angeles", 1.22),
    Location("San Diego", 1.18),
    Location("Washington DC", 1.15),
    Location("Denver", 1.10),
    Location("Austin", 1.05),
    Location("Remote US", 1.00),
    Location("Toronto", 0.95),
    Location("Montreal", 0.85),
    Location("Mexico City", 0.70),
    Location("S\U{00C3}\U{00A3}o Paulo", 0.65),
    Location("Buenos Aires", 0.60),
    Location("Santiago", 0.68),
    Location("Bangalore", 0.35),
    Location("Warsaw", 0.55),
    Location("Lisbon", 0.60),
    Location("Tel Aviv", 0.90)
  ]


  function StageTimeline(s: Stage): (months: nat)
  {
    match s
    case Concept => 30
    case Prototype => 24
    case Pilot => 18
    case MarketReady => 12
  }

  const TechnologyGroups: seq<Group<Technology>> := [
    Group("Digital & Software", [SoftwareSaas, AiMachineLearning, FinTech, EdTech, BlockchainWeb3]),
    Group("Healthcare & Life Sciences", [BiotechPharma, MedicalDevices, Diagnostics, DigitalHealth, SyntheticBiology]),
    Group("Hardware & Manufacturing", [HardwareProduct, Robotics, IoT, Semiconductors, AdvancedMaterials]),
    Group("Energy & Environment", [CleanEnergy, ClimateTech, WaterTech, Nuclear]),
    Group("Agriculture & Food", [AgriTech, FoodTech, Aquaculture]),
    Group("Industrial & Infrastructure", [Aerospace, SpaceTech, Construction, SupplyChain, AdvancedManufacturing])
  ]
  const MarketGroups: seq<Group<Market>> := [
    Group("B2B Enterprise", [LargeEnterprise, MidMarketB2B, SmallBusinessB2B]),
    Group("Government & Public Sector", [FederalGovernment, StateLocalGovernment, MilitaryDefense, InternationalGov]),
    Group("Healthcare & Life Sciences", [HospitalSystems, PharmaCompanies, InsurancePayers, IndividualProviders]),
    Group("Research & Education", [ResearchInstitutions, Universities, K12Education]),
    Group("Consumer Markets", [MassMarketConsumer, PremiumConsumer, ProsumerMarket]),
    Group("Industry Specific", [FinancialServices, EnergyUtilities, ManufacturingIndustrial, AgricultureFood, RealEstate]),
    Group("Impact & Non-Profit", [NonProfit, SocialEnterprises, Foundations, DevelopmentOrgs]),
    Group("Platform & Multi-Sided", [TwoSidedMarketplace, MultiSidedPlatform, NetworkEffects]),
    Group("Geographic Focus", [EmergingMarkets, GlobalMultiRegion])
  ]



  // ---------------------------------------------------------------- properties of the tables

  /** Every technology has a cost at every stage, ordered
      Market Ready < Concept < Prototype < Pilot, in whole multiples of 50,000. */
  lemma DevelopmentCostOrdered(t: Technology)
    ensures 0 < DevelopmentCost(t, MarketReady) < DevelopmentCost(t, Concept)
    ensures DevelopmentCost(t, Concept) < DevelopmentCost(t, Prototype) < DevelopmentCost(t, Pilot)
  {
  }

  /** Every development cost is a whole multiple of 50,000. */
  lemma DevelopmentCostRound(t: Technology, s: Stage)
    ensures DevelopmentCost(t, s) % 50000 == 0
  {
  }

  /** Every technology has a positive regulatory cost, a whole multiple of 25,000. */
  lemma RegulatoryCostPositive(t: Technology)
    ensures 0 < RegulatoryCost(t) && RegulatoryCost(t) % 25000 == 0
  {
  }

  /** For every market the year-one cost is positive, below the years 2-3 cost,
      and a whole multiple of 50,000. */
  lemma GtmCostOrdered(m: Market)
    ensures 0 < GtmCost(m).year1 < GtmCost(m).years23
    ensures GtmCost(m).year1 % 50000 == 0
  {
  }

  /** The baseline timeline shortens as the project matures: 30, 24, 18, 12 months. */
  lemma StageTimelineDecreasing()
    ensures StageTimeline(Concept) > StageTimeline(Prototype) > StageTimeline(Pilot) > StageTimeline(MarketReady) > 0
  {
  }

  /** Location names are pairwise distinct, every index is positive, and
      'Remote US' is the neutral index 1.00. */
  lemma GeographicLocationsWellFormed()
    ensures forall i, j :: 0 <= i < j < |GeographicLocations| ==> GeographicLocations[i].name != GeographicLocations[j].name
    ensures forall i :: 0 <= i < |GeographicLocations| ==> GeographicLocations[i].index > 0.0
    ensures Location("Remote US", 1.0) in GeographicLocations
  {
    assert GeographicLocations[9] == Location("Remote US", 1.0);
  }

  /** The group a technology is listed under. */
  function TechnologyGroupOf(t: Technology): (g: nat)
  {
    match t
    case SoftwareSaas | AiMachineLearning | FinTech | EdTech | BlockchainWeb3 => 0
    case BiotechPharma | MedicalDevices | Diagnostics | DigitalHealth | SyntheticBiology => 1
    case HardwareProduct | Robotics | IoT | Semiconductors | AdvancedMaterials => 2
    case CleanEnergy | ClimateTech | WaterTech | Nuclear => 3
    case AgriTech | FoodTech | Aquaculture => 4
    case Aerospace | SpaceTech | Construction | SupplyChain | AdvancedManufacturing => 5
  }

  /** The group a market is listed under. */
  function MarketGroupOf(m: Market): (g: nat)
  {
    match m
    case LargeEnterprise | MidMarketB2B | SmallBusinessB2B => 0
    case FederalGovernment | StateLocalGovernment | MilitaryDefense | InternationalGov => 1
    case HospitalSystems | PharmaCompanies | InsurancePayers | IndividualProviders => 2
    case ResearchInstitutions | Universities | K12Education => 3
    case MassMarketConsumer | PremiumConsumer | ProsumerMarket => 4
    case FinancialServices | EnergyUtilities | ManufacturingIndustrial | AgricultureFood | RealEstate => 5
    case NonProfit | SocialEnterprises | Foundations | DevelopmentOrgs => 6
    case TwoSidedMarketplace | MultiSidedPlatform | NetworkEffects => 7
    case EmergingMarkets | GlobalMultiRegion => 8
  }

  /** Every key a technology group lists belongs to that group. */
  lemma TechnologyGroupsOwnMembers(g: int, k: int)
    requires 0 <= g < |TechnologyGroups| && 0 <= k < |TechnologyGroups[g].members|
    ensures TechnologyGroupOf(TechnologyGroups[g].members[k]) == g
  {
  }

  lemma TechnologyListedInItsGroup(t: Technology)
    ensures t in TechnologyGroups[TechnologyGroupOf(t)].members
  {
  }

  /** Every technology is listed in exactly one technology group. */
  lemma TechnologyGroupsPartition(t: Technology)
    ensures forall g :: 0 <= g < |TechnologyGroups| ==> (t in TechnologyGroups[g].members <==> g == TechnologyGroupOf(t))
  {
    TechnologyListedInItsGroup(t);
    forall g | 0 <= g < |TechnologyGroups| && t in TechnologyGroups[g].members
      ensures g == TechnologyGroupOf(t)
    {
      var k :| 0 <= k < |TechnologyGroups[g].members| && TechnologyGroups[g].members[k] == t;
      TechnologyGroupsOwnMembers(g, k);
    }
  }

  /** Every key a market group lists belongs to that group. */
  lemma MarketGroupsOwnMembers(g: int, k: int)
    requires 0 <= g < |MarketGroups| && 0 <= k < |MarketGroups[g].members|
    ensures MarketGroupOf(MarketGroups[g].members[k]) == g
  {
  }

  lemma MarketListedInItsGroup(m: Market)
    ensures m in MarketGroups[MarketGroupOf(m)].members
  {
  }

  /** Every market is listed in exactly one market group. */
  lemma MarketGroupsPartition(m: Market)
    ensures forall g :: 0 <= g < |MarketGroups| ==> (m in MarketGroups[g].members <==> g == MarketGroupOf(m))
  {
    MarketListedInItsGroup(m);
    forall g | 0 <= g < |MarketGroups| && m in MarketGroups[g].members
      ensures g == MarketGroupOf(m)
    {
      var k :| 0 <= k < |MarketGroups[g].members| && MarketGroups[g].members[k] == m;
      MarketGroupsOwnMembers(g, k);
    }
  }

  /** Neither 'Bay Area' nor 'New York' is a location name of this table. */
  lemma MapperLocationNamesAbsent()
    ensures forall i :: 0 <= i < |GeographicLocations| ==> GeographicLocations[i].name != "Bay Area"
    ensures forall i :: 0 <= i < |GeographicLocations| ==> GeographicLocations[i].name != "New York"
  {
  }
}
