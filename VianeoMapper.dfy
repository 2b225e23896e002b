/** `mapVianeoToUserInputs` (src/utils/vianeoMapper.ts): the answers of the
    input form guessed from an imported project. Five answers come from
    keyword dictionaries searched in declaration order, the first key found
    in the lower-cased text of the project winning; the location comes from
    an ordered chain of place-name tests; anything not found takes its
    default. */
module VianeoMapper {
  import opened Common
  import opened Text
  import opened Domain
  import opened VianeoParser
  import Calculator
  import ConfigCoefficients

  // ---------------------------------------------------------------- dictionaries

  /** `TECHNOLOGY_KEYWORDS`, in declaration order. */
  const TechnologyKeywords: seq<(string, Technology)> := [
    ("software", SoftwareSaas),
    ("saas", SoftwareSaas),
    ("ai", AiMachineLearning),
    ("machine", AiMachineLearning),
    ("biotech", BiotechPharma),
    ("pharma", BiotechPharma),
    ("medtech", MedicalDevices),
    ("device", MedicalDevices),
    ("robotics", Robotics),
    ("hardware", HardwareProduct),
    ("iot", IoT),
    ("energy", CleanEnergy),
    ("climate", ClimateTech),
    ("nuclear", Nuclear),
    ("agriculture", AgriTech),
    ("fintech", FinTech),
    ("blockchain", BlockchainWeb3)
  ]

  /** `STAGE_KEYWORDS`, in declaration order. */
  const StageKeywords: seq<(string, Stage)> := [
    ("concept", Concept),
    ("idea", Concept),
    ("prototype", Prototype),
    ("mvp", Prototype),
    ("pilot", Pilot),
    ("market", MarketReady),
    ("production", MarketReady)
  ]

  /** `MARKET_KEYWORDS`, in declaration order. */
  const MarketKeywords: seq<(string, Market)> := [
    ("enterprise", LargeEnterprise),
    ("fortune", LargeEnterprise),
    ("smb", SmallBusinessB2B),
    ("small", SmallBusinessB2B),
    ("government", FederalGovernment),
    ("defense", MilitaryDefense),
    ("hospital", HospitalSystems),
    ("pharma", PharmaCompanies),
    ("insurance", InsurancePayers),
    ("consumer", MassMarketConsumer),
    ("retail", MassMarketConsumer),
    ("marketplace", TwoSidedMarketplace),
    ("platform", MultiSidedPlatform),
    ("manufacturing", ManufacturingIndustrial),
    ("energy", EnergyUtilities),
    ("agriculture", AgricultureFood)
  ]

  /** `TEAM_KEYWORDS`, in declaration order. */
  const TeamKeywords: seq<(string, TeamStatus)> := [
    ("no team", NoTeamYet),
    ("none", NoTeamYet),
    ("partial", PartialTeam),
    ("core", PartialTeam),
    ("full", FullTeam),
    ("complete", FullTeam)
  ]

  /** `REGULATORY_KEYWORDS`, in declaration order. */
  const RegulatoryKeywords: seq<(string, RegulatoryEnvironment)> := [
    ("fda", Heavy),
    ("epa", Heavy),
    ("hipaa", Moderate),
    ("moderate", Moderate),
    ("heavy", Heavy),
    ("none", NoRegulation),
    ("low", NoRegulation)
  ]

  /** `DEFAULT_INPUTS`. */
  const DefaultInputs: UserInputs :=
    UserInputs(SoftwareSaas, Prototype, MidMarketB2B, "Remote US", PartialTeam, NoRegulation)

  // ---------------------------------------------------------------- matchFromDict

  /** The value of the first key, in order, that `n` contains. */
  function FirstMatch<V>(n: string, dict: seq<(string, V)>): Option<V>
  {
    if dict == [] then None
    else if Contains(n, dict[0].0) then Some(dict[0].1)
    else FirstMatch(n, dict[1..])
  }

  /** `matchFromDict`: the first key found in the normalised text. */
  function MatchFromDict<V>(text: string, dict: seq<(string, V)>): Option<V>
  {
    FirstMatch(Normalize(text), dict)
  }

  /** Key `k` is the first key of `dict` that `n` contains. */
  predicate FirstHitAt<V>(n: string, dict: seq<(string, V)>, k: nat)
  {
    k < |dict| && Contains(n, dict[k].0) && forall j :: 0 <= j < k ==> !Contains(n, dict[j].0)
  }

  /** The first key found decides the value. */
  lemma {:induction false} FirstMatchAt<V>(n: string, dict: seq<(string, V)>, k: nat)
    requires FirstHitAt(n, dict, k)
    ensures FirstMatch(n, dict) == Some(dict[k].1)
    decreases k
  {
    if k > 0 {
      assert !Contains(n, dict[0].0);
      var rest := dict[1..];
      forall j | 0 <= j < k - 1
        ensures !Contains(n, rest[j].0)
      {
        assert rest[j] == dict[j + 1];
      }
      FirstMatchAt(n, rest, k - 1);
    }
  }

  /** There is no match exactly when the text contains no key, and a match
      is the value of the first key found. */
  lemma {:induction false} FirstMatchSpec<V>(n: string, dict: seq<(string, V)>)
    ensures FirstMatch(n, dict).None? <==> forall k :: 0 <= k < |dict| ==> !Contains(n, dict[k].0)
    ensures FirstMatch(n, dict).Some? ==> exists k: nat :: FirstHitAt(n, dict, k) && dict[k].1 == FirstMatch(n, dict).value
    decreases |dict|
  {
    if dict != [] && !Contains(n, dict[0].0) {
      var rest := dict[1..];
      FirstMatchSpec(n, rest);
      if FirstMatch(n, rest).Some? {
        var k: nat :| FirstHitAt(n, rest, k) && rest[k].1 == FirstMatch(n, rest).value;
        forall j | 0 <= j < k + 1
          ensures !Contains(n, dict[j].0)
        {
          if j > 0 {
            assert dict[j] == rest[j - 1];
          }
        }
        assert dict[k + 1] == rest[k];
        assert FirstHitAt(n, dict, k + 1);
      } else {
        forall k | 0 <= k < |dict|
          ensures !Contains(n, dict[k].0)
        {
          if k > 0 {
            assert dict[k] == rest[k - 1];
          }
        }
      }
    } else if dict != [] {
      assert FirstHitAt(n, dict, 0);
    }
  }

  /** Matching ignores letter case: matching lower-cased text is matching the text. */
  lemma MatchFromDictIgnoresCase<V>(text: string, dict: seq<(string, V)>)
    ensures MatchFromDict(ToLower(text), dict) == MatchFromDict(text, dict)
  {
    ToLowerIdempotent(text);
  }

  // ---------------------------------------------------------------- the corpus

  /** `project.description || ''`. */
  function DescriptionText(p: VianeoProject): string
  {
    match p.description
    case Some(d) => d
    case None => []
  }

  /** `project.tags || []`. */
  function TagList(p: VianeoProject): seq<string>
  {
    match p.tags
    case Some(t) => t
    case None => []
  }

  /** `Object.values(project.rawFields)`, in insertion order (integer-like
      keys, which `Object.values` lists first, are not told apart). */
  function FieldValues(fields: seq<Field>): (r: seq<string>)
    ensures |r| == |fields|
  {
    seq(|fields|, k requires 0 <= k < |fields| => fields[k].value)
  }

  /** `corpusParts`: title, description, tags, then every raw field value. */
  function CorpusParts(p: VianeoProject): seq<string>
  {
    [p.title, DescriptionText(p)] + TagList(p) + FieldValues(p.rawFields)
  }

  const CorpusSeparator: string := " \n "

  /** The lower-cased join the dictionaries are searched in. */
  function Corpus(p: VianeoProject): string
  {
    ToLower(Join(CorpusParts(p), CorpusSeparator))
  }

  /** Each part of the corpus, in any letter case, is found in the corpus:
      the title first, then the description, each tag and each raw field value. */
  lemma CorpusHoldsParts(p: VianeoProject)
    ensures var parts := CorpusParts(p);
      && |parts| == 2 + |TagList(p)| + |p.rawFields|
      && parts[0] == p.title && parts[1] == DescriptionText(p)
      && (forall k :: 0 <= k < |TagList(p)| ==> parts[2 + k] == TagList(p)[k])
      && (forall k :: 0 <= k < |p.rawFields| ==> parts[2 + |TagList(p)| + k] == p.rawFields[k].value)
      && (forall i :: 0 <= i < |parts| ==> Contains(Corpus(p), ToLower(parts[i])))
  {
    var parts := CorpusParts(p);
    forall i | 0 <= i < |parts|
      ensures Contains(Corpus(p), ToLower(parts[i]))
    {
      JoinContains(parts, CorpusSeparator, i);
      ToLowerContains(Join(parts, CorpusSeparator), parts[i]);
    }
  }

  /** A word found in any part of the project, in any letter case, is found
      in the corpus. */
  lemma CorpusHoldsWord(p: VianeoProject, i: nat, word: string)
    requires i < |CorpusParts(p)| && Contains(ToLower(CorpusParts(p)[i]), word)
    ensures Contains(Corpus(p), word)
  {
    CorpusHoldsParts(p);
    ContainsTransitive(Corpus(p), ToLower(CorpusParts(p)[i]), word);
  }

  // ---------------------------------------------------------------- location

  /** `/bay area|san francisco|silicon valley/`. */
  const BayAreaWords: seq<string> := ["bay area", "san francisco", "silicon valley"]

  /** `/new york|nyc/`. */
  const NewYorkWords: seq<string> := ["new york", "nyc"]

  /** The place-name chain: the first test that succeeds names the location. */
  function LocationOf(corpus: string): string
  {
    if ContainsAny(corpus, BayAreaWords) then "Bay Area"
    else if Contains(corpus, "austin") then "Austin"
    else if ContainsAny(corpus, NewYorkWords) then "New York"
    else if Contains(corpus, "london") then "London"
    else if Contains(corpus, "remote") then "Remote US"
    else DefaultInputs.geographicLocation
  }

  /** The location is one of five names, each chosen exactly when its test is
      the first to succeed, and 'Remote US' when none does. */
  lemma LocationOfSpec(corpus: string)
    ensures LocationOf(corpus) in ["Bay Area", "Austin", "New York", "London", "Remote US"]
    ensures LocationOf(corpus) == "Bay Area" <==> ContainsAny(corpus, BayAreaWords)
    ensures LocationOf(corpus) == "Austin" <==>
      !ContainsAny(corpus, BayAreaWords) && Contains(corpus, "austin")
    ensures LocationOf(corpus) == "New York" <==>
      !ContainsAny(corpus, BayAreaWords) && !Contains(corpus, "austin") && ContainsAny(corpus, NewYorkWords)
    ensures LocationOf(corpus) == "London" <==>
      !ContainsAny(corpus, BayAreaWords) && !Contains(corpus, "austin") && !ContainsAny(corpus, NewYorkWords)
      && Contains(corpus, "london")
    ensures LocationOf(corpus) == "Remote US" <==>
      !ContainsAny(corpus, BayAreaWords) && !Contains(corpus, "austin") && !ContainsAny(corpus, NewYorkWords)
      && !Contains(corpus, "london")
  {
  }

  // ---------------------------------------------------------------- mapVianeoToUserInputs

  /** `matchFromDict(corpus, dict) || d`: the match, or the default. */
  function Answer<V>(corpus: string, dict: seq<(string, V)>, d: V): V
  {
    match MatchFromDict(corpus, dict)
    case Some(v) => v
    case None => d
  }

  /** `mapVianeoToUserInputs`. */
  function MapVianeoToUserInputs(p: VianeoProject): UserInputs
  {
    var corpus := Corpus(p);
    UserInputs(
      Answer(corpus, TechnologyKeywords, DefaultInputs.technologyType),
      Answer(corpus, StageKeywords, DefaultInputs.currentStage),
      Answer(corpus, MarketKeywords, DefaultInputs.targetMarket),
      LocationOf(corpus),
      Answer(corpus, TeamKeywords, DefaultInputs.teamStatus),
      Answer(corpus, RegulatoryKeywords, DefaultInputs.regulatoryEnvironment))
  }

  /** One answer: the value of the first key the corpus holds, or the default
      when it holds none. */
  lemma AnswerSpec<V>(corpus: string, dict: seq<(string, V)>, d: V)
    requires Normalize(corpus) == corpus
    ensures forall k: nat :: FirstHitAt(corpus, dict, k) ==> Answer(corpus, dict, d) == dict[k].1
    ensures (forall k :: 0 <= k < |dict| ==> !Contains(corpus, dict[k].0)) ==> Answer(corpus, dict, d) == d
  {
    FirstMatchSpec(corpus, dict);
    forall k: nat | FirstHitAt(corpus, dict, k)
      ensures Answer(corpus, dict, d) == dict[k].1
    {
      FirstMatchAt(corpus, dict, k);
    }
  }

  /** The first key the lower-case corpus holds gives the answer. */
  lemma AnswerAt<V>(corpus: string, dict: seq<(string, V)>, d: V, k: nat)
    requires Normalize(corpus) == corpus && FirstHitAt(corpus, dict, k)
    ensures Answer(corpus, dict, d) == dict[k].1
  {
    FirstMatchAt(corpus, dict, k);
  }

  /** The corpus is already lower-case, so matching it does not change it. */
  lemma CorpusNormal(p: VianeoProject)
    ensures Normalize(Corpus(p)) == Corpus(p)
  {
    ToLowerIdempotent(Join(CorpusParts(p), CorpusSeparator));
  }

  /** Each of the five dictionary answers is the value of the first key the
      corpus holds, each dictionary searched on its own, or the default when
      the corpus holds none of its keys; the location follows the place-name
      chain. */
  lemma MapVianeoToUserInputsSpec(p: VianeoProject)
    ensures var c, r := Corpus(p), MapVianeoToUserInputs(p);
      && (forall k: nat :: FirstHitAt(c, TechnologyKeywords, k) ==> r.technologyType == TechnologyKeywords[k].1)
      && (forall k: nat :: FirstHitAt(c, StageKeywords, k) ==> r.currentStage == StageKeywords[k].1)
      && (forall k: nat :: FirstHitAt(c, MarketKeywords, k) ==> r.targetMarket == MarketKeywords[k].1)
      && (forall k: nat :: FirstHitAt(c, TeamKeywords, k) ==> r.teamStatus == TeamKeywords[k].1)
      && (forall k: nat :: FirstHitAt(c, RegulatoryKeywords, k) ==> r.regulatoryEnvironment == RegulatoryKeywords[k].1)
      && ((forall k :: 0 <= k < |TechnologyKeywords| ==> !Contains(c, TechnologyKeywords[k].0)) ==> r.technologyType == DefaultInputs.technologyType)
      && ((forall k :: 0 <= k < |StageKeywords| ==> !Contains(c, StageKeywords[k].0)) ==> r.currentStage == DefaultInputs.currentStage)
      && ((forall k :: 0 <= k < |MarketKeywords| ==> !Contains(c, MarketKeywords[k].0)) ==> r.targetMarket == DefaultInputs.targetMarket)
      && ((forall k :: 0 <= k < |TeamKeywords| ==> !Contains(c, TeamKeywords[k].0)) ==> r.teamStatus == DefaultInputs.teamStatus)
      && ((forall k :: 0 <= k < |RegulatoryKeywords| ==> !Contains(c, RegulatoryKeywords[k].0)) ==> r.regulatoryEnvironment == DefaultInputs.regulatoryEnvironment)
      && r.geographicLocation == LocationOf(c)
  {
    var c := Corpus(p);
    CorpusNormal(p);
    AnswerSpec(c, TechnologyKeywords, DefaultInputs.technologyType);
    AnswerSpec(c, StageKeywords, DefaultInputs.currentStage);
    AnswerSpec(c, MarketKeywords, DefaultInputs.targetMarket);
    AnswerSpec(c, TeamKeywords, DefaultInputs.teamStatus);
    AnswerSpec(c, RegulatoryKeywords, DefaultInputs.regulatoryEnvironment);
  }

  /** The answers depend on the title, description, tags and raw field values
      only: the id, tasks, files, assets and needs matrix play no part. */
  lemma MapIgnoresOtherFields(p: VianeoProject, q: VianeoProject)
    requires p.title == q.title && p.description == q.description && p.tags == q.tags
    requires FieldValues(p.rawFields) == FieldValues(q.rawFields)
    ensures MapVianeoToUserInputs(p) == MapVianeoToUserInputs(q)
  {
    assert CorpusParts(p) == CorpusParts(q);
  }

  // ---------------------------------------------------------------- consequences of the order

  /** A corpus holding "software" is a Software/SaaS platform. */
  lemma SoftwareWins(p: VianeoProject)
    requires Contains(Corpus(p), "software")
    ensures MapVianeoToUserInputs(p).technologyType == SoftwareSaas
  {
    CorpusNormal(p);
    AnswerAt(Corpus(p), TechnologyKeywords, DefaultInputs.technologyType, 0);
  }

  /** A corpus holding "fda" is under heavy regulation. */
  lemma FdaWins(p: VianeoProject)
    requires Contains(Corpus(p), "fda")
    ensures MapVianeoToUserInputs(p).regulatoryEnvironment == Heavy
  {
    CorpusNormal(p);
    AnswerAt(Corpus(p), RegulatoryKeywords, DefaultInputs.regulatoryEnvironment, 0);
  }

  /** "software" written anywhere in the project, in any letter case, makes
      it a Software/SaaS platform. */
  lemma SoftwareAnywhere(p: VianeoProject, i: nat)
    requires i < |CorpusParts(p)| && Contains(ToLower(CorpusParts(p)[i]), "software")
    ensures MapVianeoToUserInputs(p).technologyType == SoftwareSaas
  {
    CorpusHoldsWord(p, i, "software");
    SoftwareWins(p);
  }

  /** The last technology key, "blockchain", is the only one valued Blockchain/Web3. */
  lemma OnlyBlockchainIsWeb3()
    ensures |TechnologyKeywords| == 17 && TechnologyKeywords[16] == ("blockchain", BlockchainWeb3)
    ensures TechnologyKeywords[2].0 == "ai"
    ensures forall k :: 0 <= k < 16 ==> TechnologyKeywords[k].1 != BlockchainWeb3
  {
  }

  /** Blockchain/Web3 is never chosen: "blockchain" holds "ai", a key that
      comes earlier. */
  lemma BlockchainUnreachable(p: VianeoProject)
    ensures MapVianeoToUserInputs(p).technologyType != BlockchainWeb3
  {
    var c := Corpus(p);
    CorpusNormal(p);
    FirstMatchSpec(c, TechnologyKeywords);
    OnlyBlockchainIsWeb3();
    if Contains(c, "blockchain") {
      assert MatchesAt("blockchain", "ai", 7);
      ContainsTransitive(c, "blockchain", "ai");
      assert Contains(c, TechnologyKeywords[2].0);
    }
    if FirstMatch(c, TechnologyKeywords).Some? {
      var k: nat :| FirstHitAt(c, TechnologyKeywords, k) && TechnologyKeywords[k].1 == FirstMatch(c, TechnologyKeywords).value;
      assert k != 16;
    }
  }

  /** "epa" is found inside ordinary words: a corpus holding "department"
      but not "fda" is under heavy regulation. */
  lemma DepartmentIsHeavy(p: VianeoProject)
    requires Contains(Corpus(p), "department") && !Contains(Corpus(p), "fda")
    ensures MapVianeoToUserInputs(p).regulatoryEnvironment == Heavy
  {
    assert MatchesAt("department", "epa", 1);
    ContainsTransitive(Corpus(p), "department", "epa");
    CorpusNormal(p);
    AnswerAt(Corpus(p), RegulatoryKeywords, DefaultInputs.regulatoryEnvironment, 1);
  }

  /** One word can set two answers: "pharma", with no earlier key of either
      dictionary, gives both Biotech/Pharmaceutical and Pharmaceutical/Biotech
      Companies. */
  lemma PharmaSetsBoth(p: VianeoProject)
    requires Contains(Corpus(p), "pharma")
    requires !ContainsAny(Corpus(p), ["software", "saas", "ai", "machine", "biotech"])
    requires !ContainsAny(Corpus(p), ["enterprise", "fortune", "smb", "small", "government", "defense", "hospital"])
    ensures MapVianeoToUserInputs(p).technologyType == BiotechPharma
    ensures MapVianeoToUserInputs(p).targetMarket == PharmaCompanies
  {
    var c := Corpus(p);
    CorpusNormal(p);
    forall j | 0 <= j < 5
      ensures !Contains(c, TechnologyKeywords[j].0)
    {
      assert TechnologyKeywords[j].0 == ["software", "saas", "ai", "machine", "biotech"][j];
    }
    AnswerAt(c, TechnologyKeywords, DefaultInputs.technologyType, 5);
    forall j | 0 <= j < 7
      ensures !Contains(c, MarketKeywords[j].0)
    {
      assert MarketKeywords[j].0 == ["enterprise", "fortune", "smb", "small", "government", "defense", "hospital"][j];
    }
    AnswerAt(c, MarketKeywords, DefaultInputs.targetMarket, 7);
  }

  /** "none" means no team yet whatever else the corpus holds, and, with no
      earlier regulatory key, no regulation. */
  lemma NoneSetsBoth(p: VianeoProject)
    requires Contains(Corpus(p), "none")
    ensures MapVianeoToUserInputs(p).teamStatus == NoTeamYet
    ensures !ContainsAny(Corpus(p), ["fda", "epa", "hipaa", "moderate", "heavy"]) ==>
      MapVianeoToUserInputs(p).regulatoryEnvironment == NoRegulation
  {
    var c := Corpus(p);
    CorpusNormal(p);
    if Contains(c, "no team") {
      AnswerAt(c, TeamKeywords, DefaultInputs.teamStatus, 0);
    } else {
      AnswerAt(c, TeamKeywords, DefaultInputs.teamStatus, 1);
    }
    if !ContainsAny(c, ["fda", "epa", "hipaa", "moderate", "heavy"]) {
      forall j | 0 <= j < 5
        ensures !Contains(c, RegulatoryKeywords[j].0)
      {
        assert RegulatoryKeywords[j].0 == ["fda", "epa", "hipaa", "moderate", "heavy"][j];
      }
      AnswerAt(c, RegulatoryKeywords, DefaultInputs.regulatoryEnvironment, 5);
    }
  }

  /** With no keyword and no place name found, the answers are the defaults. */
  lemma NothingFoundGivesDefaults(p: VianeoProject)
    requires forall k :: 0 <= k < |TechnologyKeywords| ==> !Contains(Corpus(p), TechnologyKeywords[k].0)
    requires forall k :: 0 <= k < |StageKeywords| ==> !Contains(Corpus(p), StageKeywords[k].0)
    requires forall k :: 0 <= k < |MarketKeywords| ==> !Contains(Corpus(p), MarketKeywords[k].0)
    requires forall k :: 0 <= k < |TeamKeywords| ==> !Contains(Corpus(p), TeamKeywords[k].0)
    requires forall k :: 0 <= k < |RegulatoryKeywords| ==> !Contains(Corpus(p), RegulatoryKeywords[k].0)
    requires !ContainsAny(Corpus(p), BayAreaWords) && !Contains(Corpus(p), "austin")
    requires !ContainsAny(Corpus(p), NewYorkWords) && !Contains(Corpus(p), "london")
    ensures MapVianeoToUserInputs(p) == DefaultInputs
  {
    MapVianeoToUserInputsSpec(p);
  }

  // ---------------------------------------------------------------- the location's multiplier

  /** 'Bay Area' and 'New York' are not names of the coefficient table (it
      lists 'Bay Area (San Francisco)' and 'New York City'), so the
      multiplier-aware estimate weighs them 1.0, as it does 'Remote US'. */
  lemma UnlistedLocationsWeighOne()
    ensures Calculator.GeoMultiplier("Bay Area") == 1.0
    ensures Calculator.GeoMultiplier("New York") == 1.0
  {
    ConfigCoefficients.MapperLocationNames();
    Calculator.GeoMultiplierSpec("Bay Area");
    Calculator.GeoMultiplierSpec("New York");
  }

  /** 'Austin' weighs its listed index 1.05. */
  lemma AustinWeight()
    ensures Calculator.GeoMultiplier("Austin") == 1.05
  {
    var locations := ConfigCoefficients.GeographicLocations;
    assert locations[5].name == "Austin";
    Calculator.LocationIndexFirst(locations, "Austin", 5);
  }

  /** 'London' weighs its listed index 1.15. */
  lemma LondonWeight()
    ensures Calculator.GeoMultiplier("London") == 1.15
  {
    var locations := ConfigCoefficients.GeographicLocations;
    assert locations[12].name == "London";
    Calculator.LocationIndexFirst(locations, "London", 12);
  }

  /** 'Remote US', the default, weighs its listed index 1.00. */
  lemma RemoteUsWeight()
    ensures Calculator.GeoMultiplier("Remote US") == 1.0
  {
    var locations := ConfigCoefficients.GeographicLocations;
    assert locations[7].name == "Remote US";
    Calculator.LocationIndexFirst(locations, "Remote US", 7);
  }
}
