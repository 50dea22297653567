# AgorAI data preparation: climate profiles, configuration, crop catalogue

This project models three pieces of the AgorAI agricultural simulation in Dafny
and proves properties of them.

- **Climate profiles** (`scripts/fetch_climate_data.py`). The fetcher downloads
  monthly NASA POWER observations for one representative point per zone. For
  every parameter, a reading sits under a period key `"YYYYMM"`; `-999` or
  `null` means "no data". The readings are reduced to a climate profile with
  four sections:
  - a twelve-month climatology;
  - an annual summary over the years in which all twelve months were observed;
  - a year-by-year series over whatever months exist;
  - inter-annual variability: drought and wet frequencies, the coefficient of
    variation, and the January/July thermal amplitude.

  The per-zone loop stores, for every zone of the registry, either that profile
  or an error entry.
- **Configuration** (`utils/config.py`). A parsed YAML document supports
  dotted-path look-ups with a default, named top-level sections, and a
  process-wide cached instance.
- **Crop catalogue update** (`scripts/update_crops_faostat.py`). Every crop with
  a FAOSTAT producer price gets that price, its cost-model references and a
  moisture class. The baseline production cost per hectare is a fixed linear
  formula over table look-ups with defaults.

## Layout

| file | module | contents |
|---|---|---|
| `wrappers.dfy` | `Wrappers` | `Option`, `Result` |
| `json.dfy` | `Json` | parsed JSON/YAML values |
| `stats.dfy` | `Stats` | sum, mean, min, max, the variance behind `_std`, the `zip` weighted sum |
| `period_keys.dfy` | `PeriodKeys` | `str(year)` and `"YYYYMM"` keys, with their parsers |
| `climate_records.dfy` | `ClimateRecords` | raw record, constants, the filtered look-ups and their loops |
| `monthly_climatology.dfy` | `MonthlyClimatology` | the `monthly_climatology` section |
| `annual_summary.dfy` | `AnnualSummary` | the `annual_summary` section |
| `yearly_series.dfy` | `YearlySeries` | the `yearly_data` section |
| `variability.dfy` | `Variability` | `_compute_variability` |
| `climate_profiles.dfy` | `ClimateProfiles` | `process_monthly_data` and the zone loop |
| `configuration.dfy` | `Configuration` | `Config`, `load_config`, `get_config` |
| `crops.dfy` | `Crops` | the price and cost tables, `compute_production_cost`, the per-crop update |

Every `for` statement of the source is a Dafny method with a `while` loop, and
each such method is proved equal to a specification function. The sums over
generator expressions (`sum(v * d for v, d in zip(...))`, the drought and wet
counts, the squared deviations in `_std`) and `key.split(".")` are recursive
functions. The lemmas state what the source promises about the specification
functions. Arithmetic is over `real`.

- `_std` is kept as the sample variance it takes the root of. The drought and
  wet tests `p < mean - std` and `p > mean + std` are stated without the root;
  `DroughtThreshold` and `WetThreshold` prove that these are the same tests.
- Python's `round(x, k)` on the climate statistics is not modelled: each
  statistic is the exact value before rounding.
- `round(total)` in the production cost is modelled as rounding to the nearest
  integer, with ties going to the even neighbour.

## Model

| member | source | states |
|---|---|---|
| Stats.Min | scripts/fetch_climate_data.py:130 | `min` is an element of the list that no element is below |
| Stats.Max | scripts/fetch_climate_data.py:131 | `max` is an element of the list that no element is above |
| Stats.SumSqDev | scripts/fetch_climate_data.py:277 | the sum of squared deviations is never negative |
| Stats.Variance | scripts/fetch_climate_data.py:272-278 | the variance behind `_std` is never negative and is 0 for fewer than two values |
| Stats.MeanWithinMinMax | scripts/fetch_climate_data.py:129-131 | min ≤ mean ≤ max for every non-empty list |
| Stats.VarianceOfConstant | scripts/fetch_climate_data.py:272-278 | `_std` is 0 when all values are equal |
| Stats.WeightedSumOfConstant | scripts/fetch_climate_data.py:156 | values that are all `c`, weighted through `zip`, give `c` times the sum of the first `len(values)` weights |
| PeriodKeys.IntToStringRoundTrip | scripts/fetch_climate_data.py:191 | `str(year)` parses back to the year |
| PeriodKeys.IntToStringInjective | scripts/fetch_climate_data.py:191 | distinct years get distinct `yearly_data` keys |
| PeriodKeys.PeriodKeyRoundTrip | scripts/fetch_climate_data.py:122 | the key `f"{year}{month:02d}"` splits back into its year and month |
| PeriodKeys.PeriodKeyInjective | scripts/fetch_climate_data.py:122 | different (year, month) pairs never share a period key |
| ClimateRecords.ObservedFilter | scripts/fetch_climate_data.py:122-125 | a value is kept exactly when its period key is present, holds a number and that number is not -999; a kept value is the stored number |
| ClimateRecords.AcrossYearsCount | scripts/fetch_climate_data.py:120-125 | one value per contributing year, so there are as many values as contributing years and at most `end - start + 1` |
| ClimateRecords.AcrossYearsMembers | scripts/fetch_climate_data.py:121-125 | the collected values of a month are exactly the observed values of the years in range; none is -999 |
| ClimateRecords.AcrossYearsNonEmpty | scripts/fetch_climate_data.py:127 | some value is collected exactly when some year in range observed the month |
| ClimateRecords.MonthsOfYearFull | scripts/fetch_climate_data.py:145-152 | a year has 12 collected values exactly when all twelve months are observed |
| ClimateRecords.MonthsUpToValues | scripts/fetch_climate_data.py:146-150 | the collected months of a year are observed values, none of them -999 |
| ClimateRecords.MonthsWithOneGap | scripts/fetch_climate_data.py:178-182 | with exactly one month missing, the year collects eleven values |
| ClimateRecords.CollectAcrossYears | scripts/fetch_climate_data.py:120-125 | the year loop builds exactly the list of observed values of the month |
| ClimateRecords.CollectYear | scripts/fetch_climate_data.py:145-150 | the month loop builds exactly the list of observed values of the year |
| MonthlyClimatology.StatsOf | scripts/fetch_climate_data.py:127-134 | min and max are members of the values and bound all of them; min ≤ mean ≤ max; variance ≥ 0; `n_years` is the number of values; a constant list has no spread |
| MonthlyClimatology.Climatology | scripts/fetch_climate_data.py:112-136 | the climatology has exactly twelve entries |
| MonthlyClimatology.MonthParamsSpec | scripts/fetch_climate_data.py:117-134 | a parameter is listed under a month exactly when it is requested, in the record and has a value; its statistics are those of its values |
| MonthlyClimatology.ClimatologyEntry | scripts/fetch_climate_data.py:113-136 | entry `m` carries the m-th month name; a parameter appears under it exactly when the record has it and some year in range observed that month |
| MonthlyClimatology.ClimatologyStats | scripts/fetch_climate_data.py:127-134 | listed statistics are those of the observed values, and `n_years` is the number of contributing years, at most `end - start + 1` |
| MonthlyClimatology.BuildMonth | scripts/fetch_climate_data.py:115-134 | the parameter loop builds exactly the month's parameter map |
| MonthlyClimatology.BuildClimatology | scripts/fetch_climate_data.py:112-136 | the month loop builds exactly the climatology |
| AnnualSummary.SummaryOf | scripts/fetch_climate_data.py:163-168 | min and max are members of the values and bound all of them; min ≤ mean ≤ max; variance ≥ 0 |
| AnnualSummary.DaysPerMonthTotal | scripts/fetch_climate_data.py:155 | the days-per-month table totals 365.25 |
| AnnualSummary.AnnualLabelInjective | scripts/fetch_climate_data.py:162 | different parameters get different annual labels |
| AnnualSummary.FullYearValuesCount | scripts/fetch_climate_data.py:144-159 | one value per full year: as many values as full years, at most `end - start + 1` |
| AnnualSummary.FullYearValuesMembers | scripts/fetch_climate_data.py:144-159 | the values are exactly the contributions of the full years in range |
| AnnualSummary.PartialYearExcluded | scripts/fetch_climate_data.py:152 | a year with any month missing is not a full year |
| AnnualSummary.FullYearValue | scripts/fetch_climate_data.py:152-159 | a full year contributes the mean of its twelve values, or the day-weighted sum for precipitation |
| AnnualSummary.ConstantPrecipYear | scripts/fetch_climate_data.py:153-157 | a full year at a constant `c` mm/day totals `365.25 * c` mm |
| AnnualSummary.AnnualOverSpec | scripts/fetch_climate_data.py:140-168 | a label is present exactly when its parameter is visited, in the record and has a full year; the label carries that parameter's statistics |
| AnnualSummary.FullYearValuesNonEmpty | scripts/fetch_climate_data.py:161 | some value is collected exactly when some year in range is full |
| AnnualSummary.AnnualEntry | scripts/fetch_climate_data.py:140-168 | a requested parameter has an annual entry exactly when the record has it and some year in range is full for it |
| AnnualSummary.AnnualStats | scripts/fetch_climate_data.py:161-168 | the statistics under a label are those of its parameter's full-year values |
| AnnualSummary.AnnualKeys | scripts/fetch_climate_data.py:162-163 | every key is `_annual_total_mm` or `_annual_mean` of a requested parameter |
| AnnualSummary.CollectFullYearValues | scripts/fetch_climate_data.py:143-159 | the year loop builds exactly the list of full-year values |
| AnnualSummary.BuildAnnual | scripts/fetch_climate_data.py:139-168 | the parameter loop builds exactly the annual summary |
| YearlySeries.KeysDistinct | scripts/fetch_climate_data.py:186-189 | a `_monthly_mean` key never equals an `_annual_total_mm` key, and each kind of key determines its parameter |
| YearlySeries.YearRecordOverSpec | scripts/fetch_climate_data.py:174-189 | a mean key is present exactly when its parameter has an observed month that year, holding their mean; a total key only for precipitation, holding the day-weighted sum |
| YearlySeries.YearRecordEntries | scripts/fetch_climate_data.py:173-189 | a year record holds exactly the mean of every parameter with some month observed, plus the precipitation total, and no other key |
| YearlySeries.YearlyEntries | scripts/fetch_climate_data.py:171-191 | every year in range is present under `str(year)` with its record; every key is such a year |
| YearlySeries.YearlySize | scripts/fetch_climate_data.py:171-191 | the series has `end - start + 1` entries, none for an empty range |
| YearlySeries.PartialYearPolicy | scripts/fetch_climate_data.py:183-189 | a partly observed year is not a full year for the annual summary, yet its yearly record has the parameter's mean over the observed months |
| YearlySeries.PositionalWeights | scripts/fetch_climate_data.py:187 | when all observed months hold `c`, the total is `c` times the first `n` table entries, `n` being the number of observed months |
| YearlySeries.FebruaryGapShiftsWeights | scripts/fetch_climate_data.py:185-187 | with February missing and the rest at `c`, the total is `334.25 * c`, not the `337 * c` that weighting each month by its own days would give |
| YearlySeries.BuildYearRecord | scripts/fetch_climate_data.py:173-189 | the parameter loop builds exactly the year record |
| YearlySeries.BuildYearly | scripts/fetch_climate_data.py:171-191 | the year loop builds exactly the yearly series |
| Variability.CountsDisjoint | scripts/fetch_climate_data.py:228-235 | no year is both a drought and a wet year: the two counts sum to at most the number of years |
| Variability.PrecipBlockOf | scripts/fetch_climate_data.py:223-243 | variance ≥ 0; `cv` is absent exactly when mean ≤ 0; both frequencies lie in [0, 1] and sum to at most 1 |
| Variability.DroughtThreshold | scripts/fetch_climate_data.py:229-230 | with `std` the non-negative root, the drought test is exactly `p < mean - std` |
| Variability.WetThreshold | scripts/fetch_climate_data.py:233-234 | with `std` the non-negative root, the wet test is exactly `p > mean + std` |
| Variability.CountsMatchThresholds | scripts/fetch_climate_data.py:228-235 | the drought and wet counts are the numbers of years strictly below `mean - std` and strictly above `mean + std` |
| Variability.PrecipitationPresence | scripts/fetch_climate_data.py:209-223 | the precipitation block is present exactly when the record has precipitation and some year in range is full |
| Variability.ExampleBlock | scripts/fetch_climate_data.py:223-243 | totals 100, 100, 100, 100, 500 give mean 180, variance 32000, no drought year and a wet frequency of 0.2 |
| Variability.ReadingsMembers | scripts/fetch_climate_data.py:250-258 | the January/July lists hold exactly the readings that are not -999, `null` included |
| Variability.MonthsIndependent | scripts/fetch_climate_data.py:250-258 | overwriting the reading of one month leaves the list of any other month unchanged: January never affects July, and July never affects January |
| Variability.NullJanuaryFails | scripts/fetch_climate_data.py:255-265 | a stored `null` in January fails the zone whenever July has a reading |
| Variability.TemperatureBlock | scripts/fetch_climate_data.py:260-267 | the block is present exactly when `T2M` is present, both lists are non-empty and neither holds `null`; it holds non-negative spreads and mean(Jul) − mean(Jan) |
| Variability.CollectJanJul | scripts/fetch_climate_data.py:248-258 | the year loop builds exactly the January and July lists |
| Variability.ComputeVariability | scripts/fetch_climate_data.py:204-269 | the method computes exactly the variability function, failure included |
| ClimateProfiles.ProfileShape | scripts/fetch_climate_data.py:108-201 | a profile has the twelve month names in order and one yearly entry per year; it fails exactly for a missing `properties`/`parameter` or a `null` temperature |
| ClimateProfiles.ProcessMonthlyData | scripts/fetch_climate_data.py:96-201 | the method computes exactly the profile function, failures included |
| ClimateProfiles.ZoneDocumentCases | scripts/fetch_climate_data.py:331-348 | a zone's document keeps its name and point; it is a profile exactly when the fetch succeeded and the response reduced; a failed fetch is reported as a fetch error |
| ClimateProfiles.ProcessZone | scripts/fetch_climate_data.py:331-348 | one iteration computes exactly the zone's document |
| ClimateProfiles.ProcessZones | scripts/fetch_climate_data.py:327-348 | every registry zone gets exactly one document, its own, whatever the other zones' outcomes |
| Configuration.Split | utils/config.py:48 | the split has at least one part and no part contains a dot |
| Configuration.JoinSplit | utils/config.py:48 | joining the parts with dots gives the key back |
| Configuration.SplitNoDot | utils/config.py:48 | a dot-free key is a single component |
| Configuration.SplitFirst | utils/config.py:48 | a dot-free first part followed by a dot becomes the first component |
| Configuration.ResolveAppend | utils/config.py:51-57 | the walk along a path is the walk along its prefix, continued along the rest |
| Configuration.ResolveNeverNull | utils/config.py:52-55 | a walk along a non-empty path never yields `null` |
| Configuration.SectionKeysDistinct | utils/config.py:65-103 | the ten section properties read ten different top-level keys, none of them dotted |
| Configuration.Config.constructor | utils/config.py:17-36 | a config holds its path and its parsed document |
| Configuration.Config.Get | utils/config.py:38-59 | `get` returns the value the path walk reaches, or the default when the walk ends early |
| Configuration.Config.Item | utils/config.py:61-63 | `config[key]` succeeds exactly when the document is a map holding the key, and returns the stored value |
| Configuration.Config.SectionValue | utils/config.py:65-103 | a section property succeeds exactly when the document is a map |
| Configuration.Config.SectionMatchesGet | utils/config.py:65-67 | a section property equals `get(name, {})`, except for a stored `null`, which the property returns and `get` replaces by `{}` |
| Configuration.OpenConfig | utils/config.py:17-36 | a missing file and malformed YAML are errors; otherwise a new config holds the path and the document |
| Configuration.ConfigCache.constructor | utils/config.py:120 | the cache starts empty |
| Configuration.ConfigCache.LoadConfig | utils/config.py:123-136 | once cached, every call returns the same instance whatever its path; a first call caches a successful load, and a failed one leaves the cache empty |
| Configuration.ConfigCache.GetConfig | utils/config.py:139-144 | returns the cached instance, and loads `config.yaml` only when nothing is cached |
| Configuration.TwoLevelGet | utils/config.py:48-59 | `get("a.b")` is `data[a][b]` when both levels are maps holding a non-`null` value, and the default otherwise |
| Configuration.DocumentedExamples | utils/config.py:42-46 | `get("simulation.n_agents")` gives 100, and `get("nonexistent.key", default=42)` gives 42 |
| Configuration.TopLevelGet | utils/config.py:51-57 | a dot-free key reads one top-level entry; absence or `null` gives the default |
| Configuration.StoredValueReturned | utils/config.py:52-59 | any stored value other than `null` is returned as is, falsy ones included; `null` gives the default |
| Configuration.NonMappingGivesDefault | utils/config.py:56-57 | reaching a value that is not a map before the path ends gives the default |
| Crops.RoundHalfEven | scripts/update_crops_faostat.py:195 | the result is within 1/2 of the argument, and an exact tie goes to the even integer |
| Crops.WaterCostIsConstant | scripts/update_crops_faostat.py:188-192 | the water term is 500 mm × 10 m³/ha × 0.40 MAD = 2000 MAD for every crop |
| Crops.CategoriesCovered | scripts/update_crops_faostat.py:127-139 | every category a crop can get has an entry in the fertilizer, seed and mechanization tables |
| Crops.ProductionCostFormula | scripts/update_crops_faostat.py:182-195 | the cost is labour days × 84.37 plus the category's fertilizer, seed and mechanization costs plus 2000, rounded to within 1/2 |
| Crops.TreeCropsHaveNoSeedCost | scripts/update_crops_faostat.py:88-94 | a tree crop's cost is labour × 84.37 + 2500 + 0 + 800 + 2000 |
| Crops.UnknownCropCost | scripts/update_crops_faostat.py:178-179 | a crop missing from the tables is costed as a cereal with 25 labour days: 7909.25, rounded to 7909 |
| Crops.SoftWheatCost | scripts/update_crops_faostat.py:172-195 | soft wheat costs 7487.4, rounded to 7487 |
| Crops.MoistureClasses | scripts/update_crops_faostat.py:249-255 | `very_low`/`low` give `low`, `high`/`very_high` give `high`, anything else (a missing `water_need` included) gives `medium` |
| Crops.ApplyUpdateFields | scripts/update_crops_faostat.py:234-255 | an updated record loses the old price and cost fields, has exactly the old keys plus the seven written ones, holds the table values and the moisture class, and keeps every other field |
| Crops.CitrusUsesDefaults | scripts/update_crops_faostat.py:243-246 | `citrus` is priced at 5185 (2024, Oranges) and gets the defaults `cereal`, 25 and `market` |
| Crops.DatePalmsUseDefaults | scripts/update_crops_faostat.py:243-246 | `date_palms` is priced at 31240 (2024, Dates) and gets the defaults `cereal`, 25 and `market` |
| Crops.SugarcaneUsesDefaults | scripts/update_crops_faostat.py:243-246 | `sugarcane` is priced at 240 (2006, Sugar cane) and gets the defaults `cereal`, 25 and `market` |
| Crops.UpdateRecord | scripts/update_crops_faostat.py:234-255 | the pops and assignments on one record produce exactly the updated record |
| Crops.Catalogue.UpdateCrop | scripts/update_crops_faostat.py:230-255 | a priced crop's record is replaced by its update and nothing else changes |
| Crops.Catalogue.VisitCrop | scripts/update_crops_faostat.py:229-260 | one loop pass updates and counts a priced crop, skips an unpriced one, and keeps the loop invariant |
| Crops.Catalogue.UpdateWith | scripts/update_crops_faostat.py:228-260 | the loop produces the updated catalogue, and the counter is the number of catalogue crops that have a price |
| Crops.Catalogue.UpdateAll | scripts/update_crops_faostat.py:228-260 | the update against the FAOSTAT table, with the same guarantees |
| Crops.UpdatedCatalogueSpec | scripts/update_crops_faostat.py:229-260 | the update keeps the crop keys, rewrites every priced crop and leaves every other crop untouched |

## Left out

- Rounding of the climate statistics (`round(x, 2)`, `round(x, 3)`, `round(x, 1)`) is not modelled; every statistic is the exact value before rounding.
- The square root in `_std` is not modelled; the variance is stored instead, and the drought/wet tests are stated on it (see `DroughtThreshold`).
- StatsOf: stores the variance where the source stores `std`, and the values are not rounded.
- SummaryOf: stores the variance where the source stores `std`, and the values are not rounded.
- PrecipBlockOf: stores the variance rather than `std`, and `cv` squared (variance / mean²) rather than `std / mean`. It omits the two threshold fields `drought_threshold_mm` and `wet_threshold_mm`, which are `mean ∓ std`.
- TemperatureBlock: the January and July spreads are variances, not standard deviations.
- IEEE floating point is not modelled; arithmetic is exact over `real`. Some source values are not exact in binary, such as 84.37 and 0.40. For such inputs Python's `round` on the float total can differ from the exact rounding in `ProductionCost`.
- `fetch_nasa_power` is a function parameter returning a response or a failure message. The URL, the HTTP request, JSON decoding and the printed messages are not modelled.
- `load_zones`, argparse and `time.sleep` are not modelled, nor the metadata block with its `datetime.now()` timestamp, the written output file and the printed summary.
- ProfileShape: "fails exactly" is stated over a well-formed raw record: every parameter series is a map whose readings are numbers or `null`. The source also fails, into the zone's error entry, on other decoded shapes. A series that is not a map makes `.get` raise, and a string reading passes the `-999` filter and then makes `sum` raise. The model does not represent such responses.
- The zone registry is a sequence of well-formed zones with distinct ids. The source reads `representative_point` outside its `try`, so a zone without it would stop the whole run; the model does not represent such entries.
- The output `zones` object is a map, so the insertion order of the JSON document is not modelled.
- A zone's error entry keeps the kind of failure, not the text of the Python exception.
- `Config.__init__`: reading and parsing the YAML file is not modelled. The file system is a map from path to parsed document, with `None` for malformed YAML. Logging is not modelled. Mapping keys are strings, so a YAML mapping with non-string keys (`1: x`, `true: y`) and the `config[1]` look-up on it are not represented.
- `Config.to_dict` (a shallow copy) and `Config.summary` (string formatting) are not modelled.
- The `metadata` and `cost_model` sections that `update_crops_faostat.py` writes are literal texts and tables; they are not modelled. Reading and writing `crops.json` and the printed per-crop lines are not modelled either.
- The per-crop loop visits the catalogue in an arbitrary order; Python's dict order is not modelled, and the result does not depend on it. The loop takes the price table as a parameter (`UpdateWith`), and `UpdateAll` applies it to `FAOSTAT_PRICES`.
- `dashboard_solara.py`, `scripts/extract_faostat_prices.py`, `experiment_shared_optimization.py`, `utils/logger.py` and `utils/__init__.py` are not part of this model: they are presentation, pandas scripting, file rewriting and logging set-up.
