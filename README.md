# financial-tool, modelled in Dafny

This project models the computational core of the financial-tool investment
calculator and its Vianeo import, and proves properties of that model. The
calculator estimates how much money a deep-tech venture needs, from six
answers: technology, stage, target market, location, team and regulatory
environment.

- **Common, Text, Domain.** Shared vocabulary.
  - The input and result records become datatypes.
  - JavaScript's `Math.round` is rounding half up on exact reals.
  - String handling is the part of the JavaScript runtime the code relies on: lower-casing, `trim`, `includes`, `join`, and the `parseFloat(s.replace(/[^0-9.\-]/g, ''))` idiom.
- **Coefficients and ConfigCoefficients.** The two coefficient files, transcribed as constant tables.
  - Costs by technology and stage, by technology, and by market.
  - Months by stage, team multipliers, location indices, scenario modifiers and the risk-buffer share.
  - Lemmas state the orderings and shapes these tables have. For example, a later stage never costs more to develop.
- **Calculations, the simple engine.** Optimistic, Realistic and Conservative scenarios.
  - A 40% risk buffer on development and one rounding per emitted figure.
  - A confidence interval of 85% to 115% of the Realistic total.
  - A three-phase funding plan whose last phase takes the remainder.
- **Calculator, the detailed engine.** The same scenarios, scaled by the team multiplier and the location index found by exact name.
  - The regulatory cost is inside development, and the buffer is taken on that sum.
  - No money is rounded.
  - A funding plan of fixed 6- and 12-month first phases.
- **EngineComparison.** How the two engines' answers relate.
- **NeedsMatrix.** The needs-matrix normaliser and cost allocator.
  - A persona x need table of numbers, numeric text and categorical words becomes weights in [0, 1] once the table's numeric scale is detected.
  - Each need gets cost-driver shares from the keywords of its label.
  - Each cell gets a rounded share of the Realistic costs.
  - Cell costs are totalled per persona and per need.
- **VianeoParser.** The heuristics of the Vianeo export reader, over an abstract document: a table is its rows of cell texts.
  - Keyword-line diagnostics.
  - Choosing the widest table.
  - Finding the persona column.
  - Reading need labels and data rows.
  - Fitting every row to the number of needs.
- **VianeoFileList.** `parseVianeoFileList`, the pass that turns the files of an exported folder into projects.
  - HTML and JSON projects are annotated and collected.
  - Text files are merged into the first project.
  - Images are attached as assets.
  - Projects are deduplicated by id.
- **VianeoMapper.** `mapVianeoToUserInputs`, which guesses the six answers from an imported project.
  - Five answers come from ordered keyword dictionaries; the first key found in the lower-cased corpus wins.
  - The location comes from a chain of place-name tests.

Pure code is modelled as functions and lemmas. The loops of `normalizeMatrix`,
`aggregateCosts`, `extractNeedsMatrixFromNode` and `parseVianeoFileList` are
methods. Each method is proved against the function that specifies it, and the
lemmas state the properties of that function.

The detailed engine follows its code. It rounds no money, and it takes the risk
buffer on development including the regulatory cost. A description that rounds
every figure and buffers development alone fits only the simple engine.

## Model

| member | source | states |
|---|---|---|
| Text.ToLower | src/utils/needsMatrix.ts:41 | `toLowerCase()`: same length, every letter lower-cased and every other character kept |
| Text.ToLowerIdempotent | src/utils/needsMatrix.ts:86 | lower-casing twice is lower-casing once |
| Text.TrimSpec | src/utils/needsMatrix.ts:35 | `trim()` keeps a slice of the text with no white space at either end, and everything it drops is white space |
| Text.TrimContained | src/utils/needsMatrix.ts:35 | what `trim()` keeps is found in the text |
| Text.ToLowerContains | src/utils/vianeoMapper.ts:96 | lower-casing a text keeps everything it holds, lower-cased |
| Text.JoinContains | src/utils/vianeoMapper.ts:95 | every part is found in `parts.join(sep)` |
| Text.NatToString | vianeo-tools-claude-investment-calculator-tool-011CUyNUYSDpzyoC9TYw5PUE/src/utils/vianeoParser.ts:284 | a number printed in a template literal is a non-empty run of decimal digits |
| Text.KeepNumeric | src/utils/needsMatrix.ts:36 | `replace(/[^0-9.\-]/g, '')` keeps only digits, points and minus signs and never lengthens the text |
| Text.KeepNumericTrim | src/utils/needsMatrix.ts:35-36 | stripping white space first does not change what the numeric filter keeps |
| Text.ParseNumTrim | src/utils/needsMatrix.ts:35-63 | the number read from a trimmed cell is the number read from the cell untrimmed, so the numeric pass rereads the same value |
| Text.DecimalPrefixNeedsDigit | src/utils/needsMatrix.ts:36-37 | `parseFloat` reads a number only from text holding a digit |
| Text.NoDigitNoNumber | src/utils/needsMatrix.ts:36-37 | text with no digit never reads as a number |
| Text.KeepNumericKeeps | src/utils/needsMatrix.ts:36 | text of digits, points and minus signs only passes the filter unchanged |
| Text.DigitsValueOfNat | src/utils/needsMatrix.ts:36 | the printed digits of every natural number read back as that number |
| Text.ParseNumDecimal | src/utils/needsMatrix.ts:36 | for every sign, digit run before the point and digit run after it, with a digit on at least one side, the number read is the sign times whole part plus fraction over ten to its length |
| Text.ParseNumUnsigned | src/utils/needsMatrix.ts:36 | an unsigned decimal of that shape reads as its exact value |
| Text.ParseNumNegative | src/utils/needsMatrix.ts:36 | the same decimal after a minus sign reads as its negation |
| Text.ParseNumInteger | src/utils/needsMatrix.ts:36 | every digit run, with or without a minus sign in front, reads as its value |
| Text.ParseNumNat | src/utils/needsMatrix.ts:36 | the printed form of every natural number, and its negation, reads back as that number |
| Text.ParseNumNatDecimal | src/utils/needsMatrix.ts:36 | a decimal printed from two naturals reads back as the first plus the second over ten to the second's digit count |
| Text.ParseNumWhole | src/utils/needsMatrix.ts:36 | "42" reads as 42 |
| Text.ParseNumFraction | src/utils/needsMatrix.ts:36 | "-.5" reads as -0.5 |
| Text.ParseNumPercent | src/utils/needsMatrix.ts:36 | "12.5%" reads as 12.5, the sign being stripped |
| Text.ParseNumWord | src/utils/needsMatrix.ts:36 | "high" reads as no number |
| Common.Round | src/utils/calculations.ts:74-82 | JavaScript `Math.round` on an exact real: the result lies in (x - 1/2, x + 1/2], so halves round up |
| Common.RoundMonotone | src/utils/calculations.ts:74-82 | `Math.round` never reverses the order of two figures |
| Common.RoundWhole | src/utils/calculations.ts:74-82 | `Math.round` leaves a whole number as it is |
| Common.RealMax | src/utils/needsMatrix.ts:59-65 | `Math.max` of two figures: at least both, and one of them |
| Common.RealMin | src/utils/needsMatrix.ts:65 | `Math.min` of two figures: at most both, and one of them |
| Domain.FindRealistic | src/utils/calculations.ts:109 | `scenarios.find(s => s.name === 'Realistic')`: the index of the first scenario so named, or the length when none is |
| Coefficients.DevelopmentCostOrdered | src/utils/coefficients.ts:4-178 | `DEVELOPMENT_COSTS` is total over technology x stage, and for every technology Market Ready < Concept < Prototype < Pilot, all positive |
| Coefficients.DevelopmentCostRound | src/utils/coefficients.ts:4-178 | every development cost is a whole multiple of 50,000 |
| Coefficients.RegulatoryCostPositive | src/utils/coefficients.ts:181-209 | every technology has a positive regulatory cost, a whole multiple of 25,000 |
| Coefficients.GtmCostOrdered | src/utils/coefficients.ts:212-261 | for every market 0 < year1 < years23, and year1 is a whole multiple of 50,000 |
| Coefficients.StageTimelineDecreasing | src/utils/coefficients.ts:264-269 | `STAGE_TIMELINES` strictly decreases with maturity: 30 > 24 > 18 > 12 > 0 |
| Coefficients.GeographicLocationsWellFormed | src/utils/coefficients.ts:272-293 | location names are pairwise distinct, every index is positive, and 'Remote US' has index 1.00 |
| Coefficients.TechnologyGroupsOwnMembers | src/utils/coefficients.ts:296-336 | every technology a group lists is one whose group is that group |
| Coefficients.TechnologyListedInItsGroup | src/utils/coefficients.ts:296-336 | every technology is listed in its own group |
| Coefficients.TechnologyGroupsPartition | src/utils/coefficients.ts:296-336 | `TECHNOLOGY_GROUPS` partitions the technologies: each is listed in exactly one group |
| Coefficients.MarketGroupsOwnMembers | src/utils/coefficients.ts:338-388 | every market a group lists is one whose group is that group |
| Coefficients.MarketListedInItsGroup | src/utils/coefficients.ts:338-388 | every market is listed in its own group |
| Coefficients.MarketGroupsPartition | src/utils/coefficients.ts:338-388 | `MARKET_GROUPS` partitions the markets: each is listed in exactly one group |
| Coefficients.MapperLocationNamesAbsent | src/utils/coefficients.ts:272-293 | neither 'Bay Area' nor 'New York' names a location of this table |
| ConfigCoefficients.SameCostTables | vianeo-tools-claude-investment-calculator-tool-011CUyNUYSDpzyoC9TYw5PUE/src/config/coefficients.ts:4-280 | the development, regulatory, year-one and years 2-3 GTM costs and the stage months equal the simple engine's tables entry by entry |
| ConfigCoefficients.DevelopmentCostOrdered | vianeo-tools-claude-investment-calculator-tool-011CUyNUYSDpzyoC9TYw5PUE/src/config/coefficients.ts:4-178 | total over technology x stage, and Market Ready < Concept < Prototype < Pilot for every technology |
| ConfigCoefficients.RegulatoryCostPositive | vianeo-tools-claude-investment-calculator-tool-011CUyNUYSDpzyoC9TYw5PUE/src/config/coefficients.ts:181-220 | every technology has a positive regulatory cost |
| ConfigCoefficients.GtmCostOrdered | vianeo-tools-claude-investment-calculator-tool-011CUyNUYSDpzyoC9TYw5PUE/src/config/coefficients.ts:223-272 | for every market 0 < year1 < years23 |
| ConfigCoefficients.SalesCycleStated | vianeo-tools-claude-investment-calculator-tool-011CUyNUYSDpzyoC9TYw5PUE/src/config/coefficients.ts:223-272 | every market states a non-empty sales cycle (which no engine reads) |
| ConfigCoefficients.DevelopmentMonthsValues | vianeo-tools-claude-investment-calculator-tool-011CUyNUYSDpzyoC9TYw5PUE/src/config/coefficients.ts:275-280 | `DEVELOPMENT_MONTHS` is 30 / 24 / 18 / 12 |
| ConfigCoefficients.TeamMultiplierOrdered | vianeo-tools-claude-investment-calculator-tool-011CUyNUYSDpzyoC9TYw5PUE/src/config/coefficients.ts:283-287 | no team 1.3 > partial team 1.1 > full team 1.0: none discounts |
| ConfigCoefficients.ScenarioModifiersOrdered | vianeo-tools-claude-investment-calculator-tool-011CUyNUYSDpzyoC9TYw5PUE/src/config/coefficients.ts:314-333 | every modifier strictly grows from optimistic to realistic to conservative |
| ConfigCoefficients.GeographicLocationsWellFormed | vianeo-tools-claude-investment-calculator-tool-011CUyNUYSDpzyoC9TYw5PUE/src/config/coefficients.ts:290-311 | names pairwise distinct, every index positive, 'Remote US' at 1.00 |
| ConfigCoefficients.MapperLocationNames | vianeo-tools-claude-investment-calculator-tool-011CUyNUYSDpzyoC9TYw5PUE/src/config/coefficients.ts:290-311 | 'Austin' and 'London' are listed, 'Bay Area' and 'New York' are not |
| Calculator.NonZeroOr | src/utils/calculator.ts:21 | the logical-or fallback on a number: x unless x is 0, then d |
| Calculator.LocationIndexFirst | src/utils/calculator.ts:20-21 | `find` by exact name: the first entry carrying the name decides the index |
| Calculator.LocationIndexRange | src/utils/calculator.ts:20-21 | a name no entry carries gets 1.0; otherwise the index is 1.0 or one of the listed indices |
| Calculator.GeoMultiplierSpec | src/utils/calculator.ts:20-21 | the multiplier is positive, is the index of a listed location with that exact name, and is 1.0 for any other name |
| Calculator.CalculateInvestment | src/utils/calculator.ts:119-153 | exactly three scenarios, named Optimistic, Realistic, Conservative in that order, and the inputs are returned unchanged |
| Calculator.Scenarios | src/utils/calculator.ts:13-141 | each of the three scenarios is the one its name gives over the same table values and multipliers, and the figures no scenario modifier reaches, the regulatory cost and the years 2-3 GTM cost, are equal in all three |
| Calculator.ScenarioFor | src/utils/calculator.ts:23-53 | the scenario built with one set of modifiers carries that scenario's name |
| Calculator.BasesPositive | src/utils/calculator.ts:15-21 | every looked-up value is positive: development and year-one GTM costs, months at least 12, team multiplier at least 1, location index above 0 |
| Calculator.ScenarioFigures | src/utils/calculator.ts:25-53 | technical = base x dev x team x geo; regulatory = table x geo; development = technical + regulatory; gtm = gtmYear1 = year1 x gtm x geo; gtmYears23 = years23 x geo with no scenario multiplier; risk buffer = 40% of development; total = 1.4 technical + 1.4 regulatory + gtmYear1, so regulatory cost is counted once |
| Calculator.BreakEvenFromTimeline | src/utils/calculator.ts:40-41 | timeline = Round(months x timeline modifier); break-even = Round(that rounded timeline x break-even modifier) |
| Calculator.ScheduleOf | src/utils/calculator.ts:72-73 | the same timeline and break-even rule for any table values |
| Calculator.ScenariosOrdered | src/utils/calculator.ts:13-141 | Optimistic < Realistic < Conservative in total, timeline and break-even, for every input |
| Calculator.ScenariosOrderedFor | src/utils/calculator.ts:25-105 | the same ordering for any positive table values, with a positive optimistic total |
| Calculator.TotalIn | src/utils/calculator.ts:25-37 | the total is 1.4 x (dev modifier x base x team x geo + regulatory x geo) + gtm modifier x year1 x geo |
| Calculator.TimelinesOrdered | src/utils/calculator.ts:40-41 | for 12 or more months the three rounded timelines and the three break-even points are strictly apart |
| Calculator.TeamRaisesCostFor | src/utils/calculator.ts:25 | with everything else equal, a larger team multiplier gives a larger total |
| Calculator.TeamRaisesCost | src/utils/calculator.ts:19-25 | no team > partial team > full team in total, in every scenario |
| Calculator.GeoScales | src/utils/calculator.ts:25-41 | every money figure is the location index times the same figure at index 1.0; timeline and break-even do not depend on it |
| Calculator.ConfidenceIntervalExact | src/utils/calculator.ts:144-147 | the interval is exactly 85% and 115% of the realistic total, unrounded, and holds that total |
| Calculator.CalculateStagedFunding | src/utils/calculator.ts:156-206 | the plan has exactly three phases |
| Calculator.StagedFundingReconciles | src/utils/calculator.ts:156-206 | investments are exactly 15 / 35 / 50% of the total and add up to it; the phases last exactly 6 months, 12 months and max(12, timeline - 18), adding up to the total duration, which is max(30, timeline); percentages 15, 35 and 50 |
| Calculator.StagedFundingThirtyMonths | src/utils/calculator.ts:156-206 | for every estimate the realistic plan lasts exactly 30 months, since no stage exceeds 30 months |
| Calculations.CalculateInvestment | src/utils/calculations.ts:9-106 | three scenarios in the declared order Optimistic, Realistic, Conservative; inputs returned unchanged; the interval is Round(0.85 t) to Round(1.15 t) for the realistic total t, and brackets t |
| Calculations.IntervalBrackets | src/utils/calculations.ts:95-99 | Round(0.85 t) <= t <= Round(1.15 t) for the realistic total t |
| Calculations.BasesWhole | src/utils/calculations.ts:11-14 | the looked-up costs are whole multiples of 50,000, the years 2-3 cost of 100,000 |
| Calculations.GtmYears23Whole | src/utils/coefficients.ts:212-261 | every years 2-3 GTM cost is a whole multiple of 100,000 |
| Calculations.ScenarioFigures | src/utils/calculations.ts:45-91 | each scenario reconciles: development, regulatory, year-one and years 2-3 GTM are the table values times the scenario multipliers with nothing lost to rounding; risk buffer 40% and technical 15% of development; total = development + regulatory + gtmYear1 + risk buffer, leaving out technical and gtmYears23; the scenario shows the breakdown's total |
| Calculations.ScenarioFor | src/utils/calculations.ts:45-91 | the scenario built from one configuration carries that configuration's name |
| Calculations.InvestmentReconciles | src/utils/calculations.ts:45-92 | all three emitted scenarios reconcile |
| Calculations.WholeFigures | src/utils/calculations.ts:47-65 | a scenario whose multiplied figures are whole numbers reconciles |
| Calculations.WholeBreakdown | src/utils/calculations.ts:73-91 | with whole multiplied figures, rounding each breakdown field changes none of them, and the total is their exact sum |
| Calculations.ContextIgnored | src/utils/calculations.ts:11-20 | location, team status and regulatory environment change no scenario and no interval |
| Calculations.TimelineAndBreakEven | src/utils/calculations.ts:67-88 | timeline = Round(months x timeline multiplier) but break-even = Round(months x break-even multiplier), on the base months |
| Calculations.ScenariosOrdered | src/utils/calculations.ts:23-92 | Optimistic < Realistic < Conservative in total, timeline and break-even, for every input |
| Calculations.MonthsOrdered | src/utils/calculations.ts:67-71 | for 12 or more months the rounded timelines and break-even points are strictly apart |
| Calculations.SaasPrototypeEnterpriseExample | src/utils/calculations.ts:9-106 | Software/SaaS, Prototype, Large Enterprise gives 843,000 < 1,538,000 < 2,432,000, 24 months, interval [1,307,300, 1,768,700] |
| Calculations.CalculateStagedFunding | src/utils/calculations.ts:108-112 | fails exactly when no scenario is named Realistic |
| Calculations.StagedFundingReconciles | src/utils/calculations.ts:108-166 | with a Realistic scenario: phases 1 and 2 take Round(0.15 t) and Round(0.35 t) of its total t over Round(0.2 m) and Round(0.4 m) of its timeline m, phase 3 the rest, with percentages 15, 35 and 50; investments sum exactly to t and durations to m; no phase negative when t and m are not |
| Calculations.SplitRemainderNonNegative | src/utils/calculations.ts:119-130 | taking Round(0.15 x) and Round(0.35 x) (or 20% and 40%) out of x leaves a non-negative remainder |
| Calculations.StagedFundingExample | src/utils/calculations.ts:108-166 | 1,538,000 over 24 months splits into 230,700 / 538,300 / 769,000 over 5 / 10 / 9 months |
| EngineComparison.SameScenarioMultipliers | src/utils/calculations.ts:23-42 | the simple engine's scenario multipliers are the detailed engine's `SCENARIO_MODIFIERS` |
| EngineComparison.NeutralMultipliersDifference | src/utils/calculator.ts:25-37 | with a full team and location index 1.0, the detailed total is the simple total plus 40% of the regulatory cost |
| EngineComparison.NeutralDifference | src/utils/calculations.ts:62-65 | the same difference for any whole table values |
| EngineComparison.BreakEvenDiffers | src/utils/calculator.ts:72-73 | at the concept stage the optimistic break-even is 45 months in the simple engine and 35 in the detailed one |
| EngineComparison.SimpleEngineCellCost | src/utils/needsMatrix.ts:98-103 | the simple engine's results always have a Realistic scenario, the second, so cell costs read it |
| EngineComparison.DetailedEngineCellCost | src/utils/needsMatrix.ts:98-103 | the same for the detailed engine |
| NeedsMatrix.CategoricalWeight | src/utils/needsMatrix.ts:13-42 | a word of the categorical table gets its weight, which lies in [0, 1] |
| NeedsMatrix.SeqMin | src/utils/needsMatrix.ts:49 | `Math.min` of the numbers seen: at most every one of them, and one of them |
| NeedsMatrix.SeqMax | src/utils/needsMatrix.ts:50 | `Math.max` of the numbers seen: at least every one of them, and one of them |
| NeedsMatrix.ScaleOf | src/utils/needsMatrix.ts:52-56 | never categorical or unknown; binary exactly when 0 <= min and max <= 1; percentage exactly when 0 <= min and 10 < max <= 100; a negative minimum or a maximum over 100 gives score-0-10 |
| NeedsMatrix.DetectScale | src/utils/needsMatrix.ts:46-79 | never 'unknown', and 'categorical' exactly when no number was seen |
| NeedsMatrix.Denominator | src/utils/needsMatrix.ts:59 | 100 for a percentage table, else max - max(0, min), falling back to max and then 1: never 0 |
| NeedsMatrix.DenominatorPositive | src/utils/needsMatrix.ts:59 | when the largest number is not negative the denominator is positive |
| NeedsMatrix.Clamp01 | src/utils/needsMatrix.ts:65 | `Math.max(0, Math.min(1, x))` lies in [0, 1] and leaves a value already there unchanged |
| NeedsMatrix.NumericWeight | src/utils/needsMatrix.ts:59-65 | a number's weight on the table's scale lies in [0, 1] |
| NeedsMatrix.NumericWeightMonotone | src/utils/needsMatrix.ts:59-65 | on a table whose largest number is not negative, a larger number never gets a smaller weight |
| NeedsMatrix.NumericWeightExtremes | src/utils/needsMatrix.ts:59-65 | on a non-percentage table with 0 <= min < max, the largest number weighs 1 and the smallest 0 |
| NeedsMatrix.PercentageWeight | src/utils/needsMatrix.ts:64 | on a percentage table every number weighs itself over 100 |
| NeedsMatrix.NegativeTableExample | src/utils/needsMatrix.ts:56-65 | a table of -5 and -1 is read as score-0-10 and both cells weigh 1: a negative minimum is not subtracted |
| NeedsMatrix.FinalWeight | src/utils/needsMatrix.ts:62-75 | the weight a cell ends with lies in [0, 1] |
| NeedsMatrix.FinalGrid | src/utils/needsMatrix.ts:30-76 | the final grid has the table's shape, row by row |
| NeedsMatrix.WeightGrid | src/utils/needsMatrix.ts:30-81 | the weight grid has the table's shape, row by row |
| NeedsMatrix.FirstPassRow | src/utils/needsMatrix.ts:30-44 | the first pass over one row: the numbers it pushes and the weights it leaves are the row's specification values |
| NeedsMatrix.FirstPassTable | src/utils/needsMatrix.ts:28-44 | the first pass over the table: the numbers pushed, in order, and the first-pass weight grid |
| NeedsMatrix.NumericPassRow | src/utils/needsMatrix.ts:61-67 | the numeric pass over one row, overwriting its weights in place, leaves the second-pass weights |
| NeedsMatrix.NumericPassTable | src/utils/needsMatrix.ts:58-68 | the numeric pass over the table leaves the second-pass weight grid |
| NeedsMatrix.FillRow | src/utils/needsMatrix.ts:73-75 | filling one row's open cells with 0.2 gives the final row |
| NeedsMatrix.FillTable | src/utils/needsMatrix.ts:71-76 | filling every open cell with 0.2 gives the final grid |
| NeedsMatrix.NormalizeMatrix | src/utils/needsMatrix.ts:28-82 | personas and needs are returned unchanged, the weights are the weight grid of the table and the scale is the scale of the numbers seen |
| NeedsMatrix.RowNumberListed | src/utils/needsMatrix.ts:31-39 | every number a row's cell reads as is among the numbers pushed for that row |
| NeedsMatrix.TableNumberListed | src/utils/needsMatrix.ts:31-39 | every number a table cell reads as is among the numbers pushed for the table |
| NeedsMatrix.CellWeight | src/utils/needsMatrix.ts:31-74 | a cell that reads as a number gets its numeric weight (so the table has numbers); otherwise an exact categorical word after trim and lower-case gets its table value; anything else 0.2; a categorical weight is never overwritten |
| NeedsMatrix.WeightsInUnitInterval | src/utils/needsMatrix.ts:28-81 | the grid has the table's shape and every weight lies in [0, 1] |
| NeedsMatrix.InferDriverWeights | src/utils/needsMatrix.ts:85-95 | the three shares add up to 1 and each is positive |
| NeedsMatrix.DriversFrom | src/utils/needsMatrix.ts:88-94 | for any list of keyword families the shares add up to 1 and each is positive |
| NeedsMatrix.DriverPriority | src/utils/needsMatrix.ts:85-95 | regulatory takes 0.7 exactly when a regulatory word occurs; go-to-market exactly when no regulatory word and a market word does; development exactly when only a tech word does; development leads with 0.5 exactly when no word occurs |
| NeedsMatrix.DriversIgnoreCase | src/utils/needsMatrix.ts:86 | a need label's case does not change its shares |
| NeedsMatrix.MarketingImpliesMarket | src/utils/needsMatrix.ts:90 | every text holding "marketing" holds "market", so that alternative never decides |
| NeedsMatrix.RepairIsRegulatory | src/utils/needsMatrix.ts:88 | "epa" matches inside "Repair", making a repair need regulatory-heavy |
| NeedsMatrix.RealisticChoice | src/utils/needsMatrix.ts:99 | the scenario used is one of the results: the first Realistic one if any, else the second; there is none only with no Realistic scenario and fewer than two scenarios |
| NeedsMatrix.EstimateCellCost | src/utils/needsMatrix.ts:98-107 | fails exactly when no scenario can be picked; otherwise Round(base x weight), with base the driver shares of the picked scenario's development, year-one GTM and regulatory costs |
| NeedsMatrix.CellCostBounds | src/utils/needsMatrix.ts:101-106 | with a weight in [0, 1] and a non-negative breakdown, 0 <= cost <= Round(base), and weight 0 costs 0 |
| NeedsMatrix.CellCostMonotone | src/utils/needsMatrix.ts:106 | a larger weight never gives a smaller cost |
| NeedsMatrix.AddTo | src/utils/needsMatrix.ts:117-118 | `(map[k] or 0) + cost` adds exactly the key k to the keys |
| NeedsMatrix.TotalsStep | src/utils/needsMatrix.ts:117-118 | one more cell adds its cost to its own key's total, to the overall sum and to no other key |
| NeedsMatrix.TotalsSum | src/utils/needsMatrix.ts:113-120 | the totals, by persona or by need, add up to the sum of all cell costs |
| NeedsMatrix.TotalsPerKey | src/utils/needsMatrix.ts:117-118 | a label has a total exactly when some cell carries it, and that total is the summed cost of all cells carrying it, so duplicate labels accumulate into one key |
| NeedsMatrix.CostForAbsent | src/utils/needsMatrix.ts:117-118 | a label no cell carries sums to 0 |
| NeedsMatrix.MapSumAddTo | src/utils/needsMatrix.ts:117-118 | adding a cost to one key raises the sum of the totals by exactly that cost |
| NeedsMatrix.AddRowCosts | src/utils/needsMatrix.ts:114-119 | the inner loop adds the costs of one persona's row to the running totals; it fails only where no scenario can be picked and the row has cells |
| NeedsMatrix.AggregateCosts | src/utils/needsMatrix.ts:109-122 | fails exactly when no scenario can be picked and the matrix has cells; otherwise the per-persona and per-need totals of every cell's cost, visited persona by persona |
| NeedsMatrix.MissingWeightCostsNothing | src/utils/needsMatrix.ts:115 | a cell the weight grid does not reach counts with weight 0 and costs 0 |
| NeedsMatrix.AggregatesBalance | src/utils/needsMatrix.ts:109-122 | the per-persona totals and the per-need totals each add up to the sum of every cell's cost |
| VianeoParser.Normalize | vianeo-tools-claude-investment-calculator-tool-011CUyNUYSDpzyoC9TYw5PUE/src/utils/vianeoParser.ts:240-242 | `normalize`: same length, every character lower-cased, no upper-case letter left |
| VianeoParser.NormalizeIdempotent | vianeo-tools-claude-investment-calculator-tool-011CUyNUYSDpzyoC9TYw5PUE/src/utils/vianeoParser.ts:240-242 | normalising twice is normalising once |
| VianeoParser.LineEnd | vianeo-tools-claude-investment-calculator-tool-011CUyNUYSDpzyoC9TYw5PUE/src/utils/vianeoParser.ts:246 | the position of the first line break, or the end of the text, with no break before it |
| VianeoParser.SplitLinesShape | vianeo-tools-claude-investment-calculator-tool-011CUyNUYSDpzyoC9TYw5PUE/src/utils/vianeoParser.ts:246 | `split(/\r?\n/)` gives at least one line and no line holds a line break |
| VianeoParser.SplitLinesJoin | vianeo-tools-claude-investment-calculator-tool-011CUyNUYSDpzyoC9TYw5PUE/src/utils/vianeoParser.ts:246 | for text without carriage returns, joining the lines with line breaks gives the text back |
| VianeoParser.KeptLine | vianeo-tools-claude-investment-calculator-tool-011CUyNUYSDpzyoC9TYw5PUE/src/utils/vianeoParser.ts:246-247 | a line keeps at most one entry: its trimmed form when that is non-empty and holds a keyword |
| VianeoParser.DiagnosticLinesSound | vianeo-tools-claude-investment-calculator-tool-011CUyNUYSDpzyoC9TYw5PUE/src/utils/vianeoParser.ts:246-247 | no more kept lines than lines; every kept line is a trimmed input line that is non-empty and holds a keyword ignoring case |
| VianeoParser.DiagnosticLinesComplete | vianeo-tools-claude-investment-calculator-tool-011CUyNUYSDpzyoC9TYw5PUE/src/utils/vianeoParser.ts:246-247 | every line whose trimmed form qualifies is kept |
| VianeoParser.ExtractDiagnosticsSpec | vianeo-tools-claude-investment-calculator-tool-011CUyNUYSDpzyoC9TYw5PUE/src/utils/vianeoParser.ts:245-249 | `slice(0, 50)`: exactly the first 50 kept lines, or all of them when fewer qualify, in the text's order; each is a qualifying trimmed line of the text, and every qualifying line is kept when no more than 50 do |
| VianeoParser.Width | vianeo-tools-claude-investment-calculator-tool-011CUyNUYSDpzyoC9TYw5PUE/src/utils/vianeoParser.ts:261 | `Math.max` of the row widths: no row is wider and some row is that wide |
| VianeoParser.BestTable | vianeo-tools-claude-investment-calculator-tool-011CUyNUYSDpzyoC9TYw5PUE/src/utils/vianeoParser.ts:256-265 | the table kept is a candidate: at least 3 rows and at least 3 cells wide |
| VianeoParser.BestTableSpec | vianeo-tools-claude-investment-calculator-tool-011CUyNUYSDpzyoC9TYw5PUE/src/utils/vianeoParser.ts:253-265 | no table is chosen exactly when no table is a candidate; the chosen one has the largest rows x width of all candidates, and every earlier candidate scores strictly less, so ties go to the first |
| VianeoParser.SelectTable | vianeo-tools-claude-investment-calculator-tool-011CUyNUYSDpzyoC9TYw5PUE/src/utils/vianeoParser.ts:256-264 | the best/bestScore loop keeps exactly the table the specification chooses |
| VianeoParser.HeaderTexts | vianeo-tools-claude-investment-calculator-tool-011CUyNUYSDpzyoC9TYw5PUE/src/utils/vianeoParser.ts:269-270 | one trimmed text per header cell |
| VianeoParser.FirstPersonaHeader | vianeo-tools-claude-investment-calculator-tool-011CUyNUYSDpzyoC9TYw5PUE/src/utils/vianeoParser.ts:273-277 | the first header that, lower-cased, is exactly 'persona' or holds 'user', 'segment' or 'role'; no earlier header does |
| VianeoParser.PersonaColumn | vianeo-tools-claude-investment-calculator-tool-011CUyNUYSDpzyoC9TYw5PUE/src/utils/vianeoParser.ts:272-277 | the loop that breaks at the first match returns the first persona header, or column 0 when none matches |
| VianeoParser.FirstPersonaAt | vianeo-tools-claude-investment-calculator-tool-011CUyNUYSDpzyoC9TYw5PUE/src/utils/vianeoParser.ts:274-276 | a position before which no header matches, and which matches or ends the list, is the first persona header |
| VianeoParser.Without | vianeo-tools-claude-investment-calculator-tool-011CUyNUYSDpzyoC9TYw5PUE/src/utils/vianeoParser.ts:282-297 | skipping the persona column removes one entry when the column exists and none otherwise |
| VianeoParser.WithoutAt | vianeo-tools-claude-investment-calculator-tool-011CUyNUYSDpzyoC9TYw5PUE/src/utils/vianeoParser.ts:282-297 | entries before the persona column keep their position, later ones move up by one |
| VianeoParser.NeedName | vianeo-tools-claude-investment-calculator-tool-011CUyNUYSDpzyoC9TYw5PUE/src/utils/vianeoParser.ts:284 | `Need ${k}` is a non-empty label |
| VianeoParser.LabelOr | vianeo-tools-claude-investment-calculator-tool-011CUyNUYSDpzyoC9TYw5PUE/src/utils/vianeoParser.ts:284 | a non-blank trimmed header is its own label; a blank one becomes `Need k` |
| VianeoParser.Labels | vianeo-tools-claude-investment-calculator-tool-011CUyNUYSDpzyoC9TYw5PUE/src/utils/vianeoParser.ts:280-285 | one non-blank label per header except the persona column |
| VianeoParser.LabelsStep | vianeo-tools-claude-investment-calculator-tool-011CUyNUYSDpzyoC9TYw5PUE/src/utils/vianeoParser.ts:281-285 | the persona column adds no label; any other header adds its trimmed text, or `Need k` with k its 1-based position among the needs |
| VianeoParser.NeedLabels | vianeo-tools-claude-investment-calculator-tool-011CUyNUYSDpzyoC9TYw5PUE/src/utils/vianeoParser.ts:280-285 | the label loop builds exactly the labels the specification gives |
| VianeoParser.CellOfSpec | vianeo-tools-claude-investment-calculator-tool-011CUyNUYSDpzyoC9TYw5PUE/src/utils/vianeoParser.ts:298-300 | a cell whose text parses as a number becomes that number and any other keeps its text; trimming first does not change the number |
| VianeoParser.RowValues | vianeo-tools-claude-investment-calculator-tool-011CUyNUYSDpzyoC9TYw5PUE/src/utils/vianeoParser.ts:295-302 | a data row has one value per cell other than the persona cell |
| VianeoParser.ReadRowValues | vianeo-tools-claude-investment-calculator-tool-011CUyNUYSDpzyoC9TYw5PUE/src/utils/vianeoParser.ts:295-302 | the inner cell loop builds exactly the row's values |
| VianeoParser.ReadRowsShape | vianeo-tools-claude-investment-calculator-tool-011CUyNUYSDpzyoC9TYw5PUE/src/utils/vianeoParser.ts:287-304 | personas and value rows grow together, no more than there are rows, every persona is non-blank, and there are none exactly when no row has cells and a non-blank persona cell |
| VianeoParser.CollectKeeps | vianeo-tools-claude-investment-calculator-tool-011CUyNUYSDpzyoC9TYw5PUE/src/utils/vianeoParser.ts:294-303 | a later row never changes the entries collected before it |
| VianeoParser.ReadRowsOrigin | vianeo-tools-claude-investment-calculator-tool-011CUyNUYSDpzyoC9TYw5PUE/src/utils/vianeoParser.ts:289-304 | each collected persona and value row comes from one kept data row |
| VianeoParser.ReadDataRows | vianeo-tools-claude-investment-calculator-tool-011CUyNUYSDpzyoC9TYw5PUE/src/utils/vianeoParser.ts:287-304 | the row loop, starting at row 1, collects exactly the specification's personas and values |
| VianeoParser.Completed | vianeo-tools-claude-investment-calculator-tool-011CUyNUYSDpzyoC9TYw5PUE/src/utils/vianeoParser.ts:308-311 | the fallback leaves max(cols, needs) labels |
| VianeoParser.CompleteNeeds | vianeo-tools-claude-investment-calculator-tool-011CUyNUYSDpzyoC9TYw5PUE/src/utils/vianeoParser.ts:309-310 | the fallback loop, growing the array when it writes at its end, gives exactly the completed labels |
| VianeoParser.FinalNeeds | vianeo-tools-claude-investment-calculator-tool-011CUyNUYSDpzyoC9TYw5PUE/src/utils/vianeoParser.ts:306-311 | labels are kept when some header names a need or there is no data row; otherwise they are completed to at least the first data row's width; no label is blank |
| VianeoParser.Fit | vianeo-tools-claude-investment-calculator-tool-011CUyNUYSDpzyoC9TYw5PUE/src/utils/vianeoParser.ts:315 | exactly n cells: the row's own cells first, then empty text |
| VianeoParser.FitRow | vianeo-tools-claude-investment-calculator-tool-011CUyNUYSDpzyoC9TYw5PUE/src/utils/vianeoParser.ts:315 | truncating and then padding one row in place gives the fitted row |
| VianeoParser.FitAll | vianeo-tools-claude-investment-calculator-tool-011CUyNUYSDpzyoC9TYw5PUE/src/utils/vianeoParser.ts:315 | every row fitted to n cells, the number of rows unchanged |
| VianeoParser.FitRows | vianeo-tools-claude-investment-calculator-tool-011CUyNUYSDpzyoC9TYw5PUE/src/utils/vianeoParser.ts:315 | the forEach over the rows fits each one |
| VianeoParser.ExtractNeedsMatrix | vianeo-tools-claude-investment-calculator-tool-011CUyNUYSDpzyoC9TYw5PUE/src/utils/vianeoParser.ts:252-317 | the heuristic, stage by stage, returns exactly the specification's matrix or nothing |
| VianeoParser.MatrixShape | vianeo-tools-claude-investment-calculator-tool-011CUyNUYSDpzyoC9TYw5PUE/src/utils/vianeoParser.ts:253-316 | no matrix without a candidate table; a matrix has as many non-blank personas as value rows, at least one, at least one need, no blank need label, and every row exactly one cell per need |
| VianeoFileList.Select | vianeo-tools-claude-investment-calculator-tool-011CUyNUYSDpzyoC9TYw5PUE/src/utils/vianeoParser.ts:118-121 | `arr.filter` for one kind: only files of that kind, taken from the list, and every file of that kind |
| VianeoFileList.SavedResourceJsonIsBoth | vianeo-tools-claude-investment-calculator-tool-011CUyNUYSDpzyoC9TYw5PUE/src/utils/vianeoParser.ts:118-119 | a `saved_resource.json` in any letter case passes both the HTML and the JSON filter, so both readers see it |
| VianeoFileList.LastSegmentSpec | vianeo-tools-claude-investment-calculator-tool-011CUyNUYSDpzyoC9TYw5PUE/src/utils/vianeoParser.ts:186-195 | the text after the last '.': a suffix of the name, with no '.', preceded by a '.' unless it is the whole name |
| VianeoFileList.ExtSpec | vianeo-tools-claude-investment-calculator-tool-011CUyNUYSDpzyoC9TYw5PUE/src/utils/vianeoParser.ts:186-195 | `name.split('.').pop() or 'txt'`: never blank and without '.'; 'txt' for a blank name or one ending in '.'; the whole name when it has no '.' |
| VianeoFileList.Cap | vianeo-tools-claude-investment-calculator-tool-011CUyNUYSDpzyoC9TYw5PUE/src/utils/vianeoParser.ts:175 | `slice(0, 5000)`: a prefix of the text, exactly 5000 characters long when the text is longer, and the whole text otherwise |
| VianeoFileList.SetField | vianeo-tools-claude-investment-calculator-tool-011CUyNUYSDpzyoC9TYw5PUE/src/utils/vianeoParser.ts:193 | `rawFields[path] = text`: the key now holds the text, every other key is unchanged, an existing key keeps its place and a new one is added at the end |
| VianeoFileList.BumpSpec | vianeo-tools-claude-investment-calculator-tool-011CUyNUYSDpzyoC9TYw5PUE/src/utils/vianeoParser.ts:134-226 | `(fileTypes[k] or 0) + 1`: the count of k grows by one and no other count changes |
| VianeoFileList.AddUnique | vianeo-tools-claude-investment-calculator-tool-011CUyNUYSDpzyoC9TYw5PUE/src/utils/vianeoParser.ts:132-227 | push when not yet included: the old list is a prefix, the item is present, nothing else is added, and an item already present changes nothing |
| VianeoFileList.AddUniqueDistinct | vianeo-tools-claude-investment-calculator-tool-011CUyNUYSDpzyoC9TYw5PUE/src/utils/vianeoParser.ts:194-227 | adding without duplicates keeps a duplicate-free list duplicate-free |
| VianeoFileList.DedupSpec | vianeo-tools-claude-investment-calculator-tool-011CUyNUYSDpzyoC9TYw5PUE/src/utils/vianeoParser.ts:198 | `Array.from(new Set(...))`: duplicate-free, the same members, and a list already duplicate-free is unchanged |
| VianeoFileList.AnnotateAll | vianeo-tools-claude-investment-calculator-tool-011CUyNUYSDpzyoC9TYw5PUE/src/utils/vianeoParser.ts:130-137 | one annotated project for each project the HTML reader returns, none dropped or added |
| VianeoFileList.AnnotateHtmlSpec | vianeo-tools-claude-investment-calculator-tool-011CUyNUYSDpzyoC9TYw5PUE/src/utils/vianeoParser.ts:130-135 | the file name joins the source files, the html count grows by one, a needs matrix is kept, given a source when present, and keeps its personas; nothing else changes |
| VianeoFileList.ReadHtmlFiles | vianeo-tools-claude-investment-calculator-tool-011CUyNUYSDpzyoC9TYw5PUE/src/utils/vianeoParser.ts:126-142 | the HTML loop pushes exactly the annotated projects of every HTML file, in order |
| VianeoFileList.ReadJsonFiles | vianeo-tools-claude-investment-calculator-tool-011CUyNUYSDpzyoC9TYw5PUE/src/utils/vianeoParser.ts:145-170 | the JSON loop pushes exactly the projects the JSON reader returns, file by file |
| VianeoFileList.ReadTextSpec | vianeo-tools-claude-investment-calculator-tool-011CUyNUYSDpzyoC9TYw5PUE/src/utils/vianeoParser.ts:173-195 | a text file is read with its path and the extension of its name (never blank, without '.'); its text is the first 5000 characters of the content, or all of it; its diagnostics are exactly the first 50 diagnostic lines of that text, or all of them |
| VianeoFileList.ReadTexts | vianeo-tools-claude-investment-calculator-tool-011CUyNUYSDpzyoC9TYw5PUE/src/utils/vianeoParser.ts:173-175 | exactly one reading per text file |
| VianeoFileList.TextStep | vianeo-tools-claude-investment-calculator-tool-011CUyNUYSDpzyoC9TYw5PUE/src/utils/vianeoParser.ts:177-199 | after a text file there is at least one project |
| VianeoFileList.MergeTexts | vianeo-tools-claude-investment-calculator-tool-011CUyNUYSDpzyoC9TYw5PUE/src/utils/vianeoParser.ts:173-204 | any text file leaves at least one project |
| VianeoFileList.MergeIntoFirst | vianeo-tools-claude-investment-calculator-tool-011CUyNUYSDpzyoC9TYw5PUE/src/utils/vianeoParser.ts:192-198 | merging a text into the first project, field by field, gives exactly the merged project |
| VianeoFileList.MergeTextFile | vianeo-tools-claude-investment-calculator-tool-011CUyNUYSDpzyoC9TYw5PUE/src/utils/vianeoParser.ts:174-199 | one pass of the text loop: a placeholder when there is no project yet, else the first project merged and the rest unchanged |
| VianeoFileList.MergeTextFiles | vianeo-tools-claude-investment-calculator-tool-011CUyNUYSDpzyoC9TYw5PUE/src/utils/vianeoParser.ts:173-204 | the text loop leaves exactly the specification's projects |
| VianeoFileList.MergeTextsShape | vianeo-tools-claude-investment-calculator-tool-011CUyNUYSDpzyoC9TYw5PUE/src/utils/vianeoParser.ts:177-199 | no text files change nothing; with no project yet a single 'project-text-1' placeholder; otherwise only the first project changes, keeping its id, title, assets, needs matrix and source files |
| VianeoFileList.MergeTextsCounts | vianeo-tools-claude-investment-calculator-tool-011CUyNUYSDpzyoC9TYw5PUE/src/utils/vianeoParser.ts:186-197 | the first project's count for an extension grows by the number of text files with that extension |
| VianeoFileList.TextStepSources | vianeo-tools-claude-investment-calculator-tool-011CUyNUYSDpzyoC9TYw5PUE/src/utils/vianeoParser.ts:185-194 | a text's path joins the first project's source files, which keep all they had |
| VianeoFileList.MergeTextsPaths | vianeo-tools-claude-investment-calculator-tool-011CUyNUYSDpzyoC9TYw5PUE/src/utils/vianeoParser.ts:173-204 | every text file's path is among the first project's source files |
| VianeoFileList.MergeTextsLast | vianeo-tools-claude-investment-calculator-tool-011CUyNUYSDpzyoC9TYw5PUE/src/utils/vianeoParser.ts:184-193 | the first project's raw field for the last text file's path holds that file's capped text |
| VianeoFileList.MergeTextsDistinct | vianeo-tools-claude-investment-calculator-tool-011CUyNUYSDpzyoC9TYw5PUE/src/utils/vianeoParser.ts:198 | once a text has been merged into an existing project, its diagnostics hold no duplicates |
| VianeoFileList.ImageAssets | vianeo-tools-claude-investment-calculator-tool-011CUyNUYSDpzyoC9TYw5PUE/src/utils/vianeoParser.ts:225 | exactly one asset per image file |
| VianeoFileList.AttachAllSpec | vianeo-tools-claude-investment-calculator-tool-011CUyNUYSDpzyoC9TYw5PUE/src/utils/vianeoParser.ts:221-228 | the assets grow by one image asset per file in order, the image count by the number of files, no other count changes, every image path joins the source files, which keep all they had; nothing else changes |
| VianeoFileList.AttachImageFile | vianeo-tools-claude-investment-calculator-tool-011CUyNUYSDpzyoC9TYw5PUE/src/utils/vianeoParser.ts:225-227 | one pass of the image loop gives the project with that image attached |
| VianeoFileList.AttachImageLoop | vianeo-tools-claude-investment-calculator-tool-011CUyNUYSDpzyoC9TYw5PUE/src/utils/vianeoParser.ts:224-228 | the image loop attaches every image file in order |
| VianeoFileList.AttachImageFiles | vianeo-tools-claude-investment-calculator-tool-011CUyNUYSDpzyoC9TYw5PUE/src/utils/vianeoParser.ts:207-229 | images go to the first project, created as 'project-assets-1' when there is none; without images nothing changes |
| VianeoFileList.HasIdAppend | vianeo-tools-claude-investment-calculator-tool-011CUyNUYSDpzyoC9TYw5PUE/src/utils/vianeoParser.ts:233-234 | a list with one more project has an id exactly when the old list or the new project has it |
| VianeoFileList.FirstByIdIds | vianeo-tools-claude-investment-calculator-tool-011CUyNUYSDpzyoC9TYw5PUE/src/utils/vianeoParser.ts:231-236 | after deduplication the ids are pairwise distinct and exactly the ids of the input |
| VianeoFileList.EarliestWithIdAt | vianeo-tools-claude-investment-calculator-tool-011CUyNUYSDpzyoC9TYw5PUE/src/utils/vianeoParser.ts:234 | a project with no earlier project of its id is the earliest with that id |
| VianeoFileList.EarliestWithIdExtend | vianeo-tools-claude-investment-calculator-tool-011CUyNUYSDpzyoC9TYw5PUE/src/utils/vianeoParser.ts:233-234 | projects pushed later do not change which one is earliest for an id |
| VianeoFileList.FirstByIdEarliest | vianeo-tools-claude-investment-calculator-tool-011CUyNUYSDpzyoC9TYw5PUE/src/utils/vianeoParser.ts:231-236 | every kept project is the earliest-pushed one with its id, and the first project is kept first |
| VianeoFileList.DedupById | vianeo-tools-claude-investment-calculator-tool-011CUyNUYSDpzyoC9TYw5PUE/src/utils/vianeoParser.ts:232-236 | the byId loop keeps exactly the first project of each id |
| VianeoFileList.ParseFileList | vianeo-tools-claude-investment-calculator-tool-011CUyNUYSDpzyoC9TYw5PUE/src/utils/vianeoParser.ts:114-237 | the whole pass, with the readers given, returns exactly the specification's projects |
| VianeoFileList.MergeTextFilesCovered | vianeo-tools-claude-investment-calculator-tool-011CUyNUYSDpzyoC9TYw5PUE/src/utils/vianeoParser.ts:173-204 | with any text file the merged list is non-empty and its first project lists every text file's path |
| VianeoFileList.AttachImagesCovered | vianeo-tools-claude-investment-calculator-tool-011CUyNUYSDpzyoC9TYw5PUE/src/utils/vianeoParser.ts:207-229 | with a project or an image the list is non-empty, the first project keeps its source files and lists every image path |
| VianeoFileList.ParseFilesSpec | vianeo-tools-claude-investment-calculator-tool-011CUyNUYSDpzyoC9TYw5PUE/src/utils/vianeoParser.ts:114-237 | the returned ids are pairwise distinct; any text or image file gives at least one project, and the first one lists the path of every text and image file |
| VianeoMapper.FirstMatchAt | src/utils/vianeoMapper.ts:84-90 | when key k is contained in the text and no earlier key is, `matchFromDict` answers key k's value |
| VianeoMapper.FirstMatchSpec | src/utils/vianeoMapper.ts:84-90 | no match exactly when the text contains no key; a match is the value of the first key, in declaration order, that the text contains |
| VianeoMapper.MatchFromDictIgnoresCase | src/utils/vianeoMapper.ts:85 | the text is normalised first, so lower-casing it beforehand changes no answer |
| VianeoMapper.FieldValues | src/utils/vianeoMapper.ts:95 | `Object.values(rawFields)`: one value per field |
| VianeoMapper.CorpusHoldsParts | src/utils/vianeoMapper.ts:93-96 | the corpus parts are the title, the description, each tag, then each raw field value, in that order, and the lower-cased corpus contains each part lower-cased |
| VianeoMapper.CorpusHoldsWord | src/utils/vianeoMapper.ts:93-96 | a word one lower-cased part contains is in the corpus |
| VianeoMapper.LocationOfSpec | src/utils/vianeoMapper.ts:104-110 | the regex chain: Bay Area when any of its three names occurs; else Austin when 'austin' occurs; else New York for 'new york' or 'nyc'; else London; else the default 'Remote US', each both ways |
| VianeoMapper.AnswerSpec | src/utils/vianeoMapper.ts:98-102 | on a lower-case corpus each field takes the value of the first key the corpus contains, and the default when it contains none |
| VianeoMapper.AnswerAt | src/utils/vianeoMapper.ts:98-102 | on a lower-case corpus the first key it contains gives the field's value |
| VianeoMapper.CorpusNormal | src/utils/vianeoMapper.ts:96 | the corpus is already lower case, so normalising it again changes nothing |
| VianeoMapper.MapVianeoToUserInputsSpec | src/utils/vianeoMapper.ts:92-119 | each of the five dictionary fields is the value of its first matching key, or the default when no key matches; the location is the regex chain's answer |
| VianeoMapper.MapIgnoresOtherFields | src/utils/vianeoMapper.ts:93-96 | the answer depends only on the title, description, tags and raw field values |
| VianeoMapper.SoftwareWins | src/utils/vianeoMapper.ts:7-98 | 'software', the first technology key, decides the technology whenever it occurs |
| VianeoMapper.FdaWins | src/utils/vianeoMapper.ts:65-102 | 'fda', the first regulatory key, makes the regulation Heavy whenever it occurs |
| VianeoMapper.SoftwareAnywhere | src/utils/vianeoMapper.ts:93-98 | 'software' in any one part, in any letter case, makes the technology Software/SaaS |
| VianeoMapper.OnlyBlockchainIsWeb3 | src/utils/vianeoMapper.ts:6-24 | 'blockchain' is the last of the 17 technology keys and the only one mapping to Blockchain/Web3, and 'ai' is the third |
| VianeoMapper.BlockchainUnreachable | src/utils/vianeoMapper.ts:6-98 | no project maps to Blockchain/Web3: any corpus with 'blockchain' contains 'ai', an earlier key |
| VianeoMapper.DepartmentIsHeavy | src/utils/vianeoMapper.ts:64-102 | 'department' holds 'epa', so any corpus with it and without 'fda' gets Heavy regulation |
| VianeoMapper.PharmaSetsBoth | src/utils/vianeoMapper.ts:6-100 | 'pharma' with no earlier technology or market key sets both the technology to Biotech/Pharma and the market to Pharma companies |
| VianeoMapper.NoneSetsBoth | src/utils/vianeoMapper.ts:55-102 | 'none' sets the team to No team yet, and the regulation to None unless an earlier regulatory key occurs |
| VianeoMapper.NothingFoundGivesDefaults | src/utils/vianeoMapper.ts:75-110 | a corpus with no key and no place name gives exactly DEFAULT_INPUTS |
| VianeoMapper.UnlistedLocationsWeighOne | src/utils/vianeoMapper.ts:105-108 | 'Bay Area' and 'New York' are not names in the location table, so the estimate weighs them 1.0 |
| VianeoMapper.AustinWeight | vianeo-tools-claude-investment-calculator-tool-011CUyNUYSDpzyoC9TYw5PUE/src/config/coefficients.ts:296 | the mapper's 'Austin' is found by exact name in the location table and weighs 1.05 |
| VianeoMapper.LondonWeight | vianeo-tools-claude-investment-calculator-tool-011CUyNUYSDpzyoC9TYw5PUE/src/config/coefficients.ts:303 | the mapper's 'London' is found by exact name in the location table and weighs 1.15 |
| VianeoMapper.RemoteUsWeight | vianeo-tools-claude-investment-calculator-tool-011CUyNUYSDpzyoC9TYw5PUE/src/config/coefficients.ts:298 | the mapper's default 'Remote US' is found by exact name in the location table and weighs 1.00 |

## Left out

- DOM traversal (`DOMParser`, `querySelectorAll`), the `typeof DOMParser` guard and `JSON.parse` with its item conversion. The HTML and JSON readers are function parameters of `VianeoFileList.ParseFileList`; a document is given as its tables of cell texts.
- The asynchronous `File.text()` reads and the try/catch around each file. A file is given as its path, name and text, and read errors are not modelled.
- The order `Object.values` gives integer-like keys, which it lists first in numeric order. Raw fields and the `byId` dictionary are kept in insertion order. Deduplication by id is stated as distinct ids, every id kept, and first occurrence kept. Two clauses rest on insertion order and would not hold when an integer-like id comes after another id: the `r[0] == projects[0]` clause of `VianeoFileList.FirstByIdEarliest`, and the clause of `VianeoFileList.ParseFilesSpec` that the first returned project lists every text and image path.
- The order of `Object.values` over raw fields with integer-like keys, which changes only the order of parts in the mapper's corpus and so which of two keywords in different parts is found; `VianeoMapper.CorpusHoldsParts` assumes insertion order.
- Keys inherited through the prototype chain of a dictionary object. Dictionaries are their own listed keys only.
- IEEE-754 floating point, `NaN`, `Infinity`, and exponents and other internals of `parseFloat`. Money and weights are exact reals. A number is read as the optional sign, digits, point and digits that `parseFloat` would take from the stripped text.
- Lower-casing maps ASCII letters only; other characters are left unchanged.
- Optional fields that are absent (`description`, `tags`, a matrix `source`) are modelled as empty, matching the `|| ''` and `|| []` defaults the code applies.
- `Math.max` over an empty list of rows (`-Infinity`) in the table search. An empty table has width 0 in the model.
- `formatCurrency` and `formatNumber`, the `toFixed` and `toLocaleString` display formatting of both engines.
- The React components, PDF generation, the AI client and localStorage persistence. They are user interface and I/O.
- `ANNUAL_TEAM_COSTS` in the Vianeo coefficient file, which no modelled function reads.
- In-place mutation of project objects in `parseVianeoFileList`. The first project is replaced by its updated copy in a sequence, so aliasing between references to the same object is not modelled.
- The inline copy of the driver-weight and cell-cost logic in the import component. That logic is modelled once, from `src/utils/needsMatrix.ts`.
- VianeoFileList.ReadTextSpec: lengths are counted in Dafny characters (Unicode scalar values), while `slice(0, 5000)` counts UTF-16 code units. Text with characters outside the Basic Multilingual Plane is cut at a different place, and JavaScript can split a surrogate pair where the model cannot.
- VianeoFileList.Cap: the 5000 is counted in Dafny characters rather than UTF-16 code units, as for VianeoFileList.ReadTextSpec.
- Calculator.ScenarioFor: its own contract names the scenario only; the figures are stated by Calculator.ScenarioFigures.
- Calculations.ScenarioFor: its own contract names the scenario only; the figures are stated by Calculations.ScenarioFigures.
- Calculator.CalculateStagedFunding: its own contract states the three phases only; the amounts and durations are stated by Calculator.StagedFundingReconciles.
- VianeoFileList.AnnotateAll: its own contract states the count only; each annotation is stated by VianeoFileList.AnnotateHtmlSpec.
- VianeoFileList.ReadTexts: its own contract states the count only; each reading is stated by VianeoFileList.ReadTextSpec.
- VianeoFileList.ImageAssets: its own contract states the count only; the assets are stated by VianeoFileList.AttachAllSpec.
- VianeoMapper.FieldValues: its own contract states the count only; the values in the corpus are stated by VianeoMapper.CorpusHoldsParts.
