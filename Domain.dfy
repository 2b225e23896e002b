/** The input and output records the estimation engines share
    (src/types/index.ts). The closed string unions of the TypeScript types
    become datatypes; each constructor is commented with the literal it stands for. */
module Domain {

  datatype Technology =
    | SoftwareSaas            // 'Software/SaaS Platform'
    | AiMachineLearning       // 'AI/Machine Learning'
    | FinTech                 // 'FinTech/Financial Services'
    | EdTech                  // 'EdTech/Learning Platform'
    | BlockchainWeb3          // 'Blockchain/Web3'
    | BiotechPharma           // 'Biotech/Pharmaceutical'
    | MedicalDevices          // 'Medical Devices/MedTech'
    | Diagnostics             // 'Diagnostics/Lab Tech'
    | DigitalHealth           // 'Digital Health/Telemedicine'
    | SyntheticBiology        // 'Synthetic Biology'
    | HardwareProduct         // 'Hardware/Physical Product'
    | Robotics                // 'Robotics/Automation'
    | IoT                     // 'IoT/Connected Devices'
    | Semiconductors          // 'Semiconductors/Electronics'
    | AdvancedMaterials       // 'Advanced Materials'
    | CleanEnergy             // 'Clean Energy/Renewables'
    | ClimateTech             // 'Climate Tech/Carbon'
    | WaterTech               // 'Water/Environmental Tech'
    | Nuclear                 // 'Nuclear/Advanced Nuclear'
    | AgriTech                // 'AgriTech/Precision Agriculture'
    | FoodTech                // 'Food Tech/Alternative Protein'
    | Aquaculture             // 'Aquaculture/Blue Economy'
    | Aerospace               // 'Aerospace/Defense'
    | SpaceTech               // 'Space Technology'
    | Construction            // 'Construction/PropTech'
    | SupplyChain             // 'Supply Chain/Logistics Tech'
    | AdvancedManufacturing   // 'Advanced Manufacturing'

  datatype Stage =
    | Concept       // 'Concept (TRL 1-3)'
    | Prototype     // 'Prototype (TRL 4-6)'
    | Pilot         // 'Pilot (TRL 7-8)'
    | MarketReady   // 'Market Ready (TRL 9)'

  datatype Market =
    | LargeEnterprise         // 'Large Enterprise (Fortune 1000)'
    | MidMarketB2B            // 'Mid-Market B2B (500-5000 employees)'
    | SmallBusinessB2B        // 'Small Business B2B (<500 employees)'
    | FederalGovernment       // 'Federal/National Government'
    | StateLocalGovernment    // 'State/Local Government'
    | MilitaryDefense         // 'Military/Defense'
    | InternationalGov        // 'International Gov/Multilateral'
    | HospitalSystems         // 'Hospital Systems/Integrated Delivery'
    | PharmaCompanies         // 'Pharmaceutical/Biotech Companies'
    | InsurancePayers         // 'Insurance/Payers'
    | IndividualProviders     // 'Individual Providers/Clinics'
    | ResearchInstitutions    // 'Research Institutions/Labs'
    | Universities            // 'Universities/Higher Ed'
    | K12Education            // 'K-12 Education Systems'
    | MassMarketConsumer      // 'Mass Market Consumer (B2C)'
    | PremiumConsumer         // 'Premium/Luxury Consumer'
    | ProsumerMarket          // 'Prosumer/Enthusiast Market'
    | FinancialServices       // 'Financial Services/Banking'
    | EnergyUtilities         // 'Energy/Utilities'
    | ManufacturingIndustrial // 'Manufacturing/Industrial'
    | AgricultureFood         // 'Agriculture/Food Production'
    | RealEstate              // 'Real Estate/Construction'
    | NonProfit               // 'NGO/Non-Profit Organizations'
    | SocialEnterprises       // 'Social Enterprises'
    | Foundations             // 'Foundations/Philanthropic'
    | DevelopmentOrgs         // 'Development Organizations'
    | TwoSidedMarketplace     // 'Two-Sided Marketplace'
    | MultiSidedPlatform      // 'Multi-Sided Platform'
    | NetworkEffects          // 'Network Effects Business'
    | EmergingMarkets         // 'Emerging Markets Focus'
    | GlobalMultiRegion       // 'Global/Multi-Region'

  datatype TeamStatus =
    | NoTeamYet      // 'No team yet'
    | PartialTeam    // 'Partial team'
    | FullTeam       // 'Full team assembled'

  datatype RegulatoryEnvironment =
    | NoRegulation   // 'None'
    | Moderate       // 'Moderate'
    | Heavy          // 'Heavy (FDA/EPA level)'

  /** The six answers of the input form; the location is free text resolved later. */
  datatype UserInputs = UserInputs(
    technologyType: Technology,
    currentStage: Stage,
    targetMarket: Market,
    geographicLocation: string,
    teamStatus: TeamStatus,
    regulatoryEnvironment: RegulatoryEnvironment)

  /** Money figures are JavaScript numbers, modelled as exact reals. */
  datatype CostBreakdown = CostBreakdown(
    development: real,
    technical: real,
    regulatory: real,
    gtm: real,
    gtmYear1: real,
    gtmYears23: real,
    riskBuffer: real,
    total: real,
    breakEven: real)

  datatype ScenarioName = Optimistic | Realistic | Conservative

  datatype Scenario = Scenario(
    name: ScenarioName,
    total: real,
    timeline: real,
    breakEven: real,
    breakdown: CostBreakdown)

  datatype ConfidenceInterval = ConfidenceInterval(min: real, max: real)

  datatype CalculationResults = CalculationResults(
    scenarios: seq<Scenario>,
    confidenceInterval: ConfidenceInterval,
    inputs: UserInputs)

  datatype FundingPhase = FundingPhase(
    name: string,
    investment: real,
    duration: real,
    percentage: int,
    objective: string,
    keyMilestone: string,
    decisionGate: string)

  datatype StagedFunding = StagedFunding(
    phases: seq<FundingPhase>,
    totalInvestment: real,
    totalDuration: real)

  /** A cell of a persona x need table: a number or a piece of text. */
  datatype Cell = Num(value: real) | Text(text: string)

  /** `scenarios.find(s => s.name === 'Realistic')`: the first scenario so named. */
  function FindRealistic(scenarios: seq<Scenario>): (r: nat)
    ensures r <= |scenarios|
    ensures r < |scenarios| ==> scenarios[r].name == Realistic
    ensures forall k :: 0 <= k < r ==> scenarios[k].name != Realistic
  {
    if scenarios == [] then 0
    else if scenarios[0].name == Realistic then 0
    else 1 + FindRealistic(scenarios[1..])
  }
}
