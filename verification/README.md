# Social presence map of Sicily: scoring and colouring

The application draws one marker per Sicilian municipality on a map and
colours it by how present the municipality's official account is on the
active social platform (Facebook `fb`, Instagram `ig`, Twitter `tw`,
YouTube `yt`). This project models, in Dafny, the part of the map component
that carries that logic:

- `getValue`: the engagement score of one dataset row. It is the mean of a
  reach term (followers per resident, or likes per resident when the
  followers column is not a number) and an activity term. Off YouTube the
  activity term is the rank of the trimmed, lower-cased posting-frequency
  label in a frequency table, divided by 5. On YouTube it is total views per
  resident, and a reach term that is not a number counts as 0.
- `getColor`: the marker colour. A missing or NaN score gives the no-data
  white. A known platform gives its brand colour with alpha = score + 0.2,
  not clamped. Any other key gives opaque white.
- `getDataSocial`: the switch from platform key to bundled dataset, `null`
  for an unknown key.
- The filter-and-shape loop of `loadChartData`. It optionally keeps only the
  rows named after the nine provincial capitals, then builds a marker
  (`id`, `name`, `value`, `color`, `latitude`, `longitude`) for each row.
  The filter and the loop take the allow-list and the marker builder as
  parameters; `LoadChartData` passes the nine capitals and `ToPoint`.

The component's two pieces of state, the active platform key `_social` and
the province-only flag `_prov`, are explicit parameters here. The bundled
datasets and the frequency table are parameters too (`Datasets`, and a
`map<string, int>`).

JavaScript numbers are `Option<real>`, with `None` standing for NaN
(module `JsNumber`). The NaN-propagating operators `Div`, `Add` and `Mean`
are defined there. `String.prototype.trim` and `toLowerCase` are modelled in
`JsText`. Colours are a datatype, `NoData | Rgba(rgb, alpha) | OpaqueWhite`,
not formatted strings.

Files: `wrappers.dfy` (Option), `numbers.dfy` (JsNumber), `js_text.dfy`
(JsText), `records.dfy` (platforms, rows, datasets), `colours.dfy`
(`getColor`), `scoring.dfy` (`getValue`), `pipeline.dfy` (`getDataSocial`
and the `loadChartData` loop).

## Model

| member | source | states |
|---|---|---|
| JsNumber.Div | src/app/app.component.ts:76-79 | The quotient is a number exactly when both operands are numbers and the divisor is non-zero. The quotient times the divisor gives back the dividend. |
| JsNumber.MeanWithZero | src/app/app.component.ts:86-88 | Averaging with a zero rank term halves the other operand, NaN included. |
| JsNumber.Mean | src/app/app.component.ts:88-96 | `(a + b) / 2` is NaN exactly when an operand is. When it is a number, it lies between the two operands and twice it is their sum. |
| JsText.LeadingWs | src/app/app.component.ts:83 | The number of characters `trim` removes at the front is the length of the longest all-white-space prefix. |
| JsText.TrailingWs | src/app/app.component.ts:83 | The number of characters `trim` removes at the back is the length of the longest all-white-space suffix. |
| JsText.Trim | src/app/app.component.ts:83 | The trimmed label neither starts nor ends with white space. It is a contiguous slice of the label with only white space on either side. |
| JsText.TrimUnique | src/app/app.component.ts:83 | Trimming any white-space padding around a trimmed string gives back exactly that string. |
| JsText.TrimIdempotent | src/app/app.component.ts:83 | Trimming twice is the same as trimming once. |
| JsText.TrimBlank | src/app/app.component.ts:83 | An all-white-space label trims to the empty string. |
| JsText.Lower | src/app/app.component.ts:83 | `toLowerCase` keeps the length. Each character is either kept or is an upper-case letter replaced by its lower case 32 code points up. No upper-case letter is left, and a string without one is unchanged. |
| JsText.LowerNormalises | src/app/app.component.ts:83 | Lower-casing twice is the same as lower-casing once. |
| JsText.LowerKeepsTrimmed | src/app/app.component.ts:83 | Lower-casing neither creates nor removes white space, so a trimmed label stays trimmed. |
| Records.PlatformOf | src/app/app.component.ts:40-50 | A key names a platform exactly when it is that platform's key. An unknown key names none. |
| Records.KeyRoundTrip | src/app/app.component.ts:60-72 | Platform keys and platforms are in one-to-one correspondence. |
| Colours.Brand | src/app/app.component.ts:42-48 | Each platform's brand colour has channels in 0..255. The four RGB triplets themselves are stated per key in `Colours.GetColor`'s contract. |
| Colours.BrandsDistinct | src/app/app.component.ts:42-48 | No two platforms share a brand colour, so the colour identifies the platform. |
| Colours.GetColor | src/app/app.component.ts:34-53 | The no-data white appears exactly when the score is null or NaN, whatever the key. Opaque white appears exactly for a numeric score under an unknown key. Otherwise the colour is the key's brand RGB, with alpha minus 0.2 equal to the score. Per key: `fb` gives RGB (0, 60, 143), `ig` (188, 24, 136), `tw` (29, 161, 242) and `yt` (252, 1, 0), each with alpha score + 0.2. |
| Colours.ColourRoundTrip | src/app/app.component.ts:40-48 | From a platform colour the platform and the exact score can be read back. |
| Colours.DecodeRoundTrip | src/app/app.component.ts:40-48 | Every colour that decodes is the one the mapper produces for the decoded platform and score. |
| Colours.AlphaUnclamped | src/app/app.component.ts:42-48 | Alpha is not clamped. It exceeds 1 exactly when the score exceeds 0.8, and is negative exactly when the score is below -0.2. |
| Scoring.FrequencyKey | src/app/app.component.ts:83 | The lookup key of a label is no longer than the label, has no white space at either end and no upper-case letter. |
| Scoring.FrequencyKeyNormalises | src/app/app.component.ts:83 | The empty-label guard changes nothing: every label is looked up under its trimmed lower-case form. That form is a fixed point of the normalisation. |
| Scoring.Rank | src/app/app.component.ts:84 | A label whose trimmed lower-case form is in the table ranks that entry's value. Any other label ranks 0. |
| Scoring.RankInRange | src/app/app.component.ts:84-86 | When every table value is in 0..5, every label ranks in 0..5. |
| Scoring.Param1 | src/app/app.component.ts:76-80 | The reach term is a number exactly when the reach count (followers, or likes when followers are NaN) and the population are numbers and the population is non-zero. Then it times the population is the reach count. |
| Scoring.GetValue | src/app/app.component.ts:75-98 | Off YouTube the score is a number exactly when the reach term is, and twice the score is reach plus rank/5. On YouTube the score is a number exactly when views/residents is, and twice the score is views/residents plus the reach term (0 if NaN). |
| Scoring.LikesOnlyAsFallback | src/app/app.component.ts:76-80 | Likes are read exactly when followers are not a number. With numeric followers, any likes value gives the same score. Otherwise the row scores as if its likes were its followers. |
| Scoring.YouTubeIgnoresFrequency | src/app/app.component.ts:82-97 | On YouTube the score does not depend on the frequency table or on the label. |
| Scoring.OthersIgnoreViews | src/app/app.component.ts:82-88 | Off YouTube the score does not depend on the views column. |
| Scoring.YouTubeMissingReachIsZero | src/app/app.component.ts:89-96 | On YouTube, a row whose reach term is NaN scores half its views per resident. |
| Scoring.UnknownLabelRanksZero | src/app/app.component.ts:84-88 | Off YouTube, a label whose normalised form is not in the table leaves the score at half the reach term. |
| Scoring.BlankLabelRanksZero | src/app/app.component.ts:83-84 | An empty or all-white-space label ranks 0 when the table has no entry for the empty key. |
| Scoring.NormalisedLabelScoresAlike | src/app/app.component.ts:83-84 | Replacing a row's label with its normalised form does not change the score. |
| Scoring.ScoreInUnitRange | src/app/app.component.ts:75-88 | Off YouTube, with a positive population, a reach count between 0 and the population and table ranks in 0..5, the score is a number in [0, 1]. |
| Scoring.ScoreAboveOneWhenReachExceedsPopulation | src/app/app.component.ts:75-88 | The unit-range bound needs the reach count not to exceed the population. More followers than residents with the top rank scores above 1. |
| Scoring.QuotidianoExample | src/app/app.component.ts:82-88 | 500 followers among 1000 residents with label " Quotidiano\t" score (0.5 + R/5)/2, where R is the table's rank for "quotidiano". |
| Pipeline.GetDataSocial | src/app/app.component.ts:60-73 | Each of the four keys selects its own dataset. Any other key selects none. |
| Pipeline.Keep | src/app/app.component.ts:111 | No contract of its own. A row is kept with the flag off, and with it on only when its name is in the allow-list. `Pipeline.SurvivorsCount` and `Pipeline.SurvivorsComplete` state what keeping means for the output. |
| Pipeline.Survivors | src/app/app.component.ts:110-113 | Every surviving row is an input row that passes the filter. With the flag off, the survivors are the input unchanged. |
| Pipeline.SurvivorsAppend | src/app/app.component.ts:110-113 | Filtering distributes over concatenation, so input order is kept. |
| Pipeline.SurvivorsCount | src/app/app.component.ts:108-113 | Each row occurs among the survivors as often as in the input if it passes the filter, and not at all otherwise. |
| Pipeline.SurvivorsComplete | src/app/app.component.ts:108-113 | No input row that passes the filter is lost. |
| Pipeline.ToPoint | src/app/app.component.ts:115-122 | No contract of its own. The marker's fields are stated by `Pipeline.MarkerFields` and `Pipeline.LoadChartData`. |
| Pipeline.PointsAppend | src/app/app.component.ts:110-123 | Building markers distributes over concatenation of the rows. |
| Pipeline.PointsAt | src/app/app.component.ts:110-123 | There is one marker per row, and marker k is built from row k. |
| Pipeline.ShapeStep | src/app/app.component.ts:110-123 | One more loop step appends the row's marker when the row passes the filter, and changes nothing otherwise. |
| Pipeline.ShapeRows | src/app/app.component.ts:110-123 | For any marker builder and allow-list, the loop yields one marker per surviving row, in order. |
| Pipeline.MarkerFields | src/app/app.component.ts:115-122 | Each marker's `id` is Prov.-Comune, `name` is Nome Comune, `value` is Residenti, the coordinates are the row's, and `color` is the colour of the row's score. |
| Pipeline.NamesFromSurvivors | src/app/app.component.ts:111-117 | Every marker's name is the name of an input row that passed the filter. |
| Pipeline.LoadChartData | src/app/app.component.ts:106-123 | An unknown key gives no markers: `loadChartData` iterates over the `null` dataset and throws. Otherwise marker k is built from the k-th surviving row: `id` is Prov.-Comune, `name` is Nome Comune, `value` is Residenti, the coordinates are copied, and `color` is the colour of the row's score. With the flag off there is exactly one marker per row, in order. With it on every name is one of the nine capitals. Every name comes from an input row. |

## Left out

- Angular wiring, lifecycle hooks and `NgZone` (src/app/app.component.ts:14-22, 182-192, and src/app/app.module.ts) are framework glue with no logic to model.
- All amCharts calls are third-party rendering with no stated behaviour: marker series replacement, templates, heat rules, `initChart`, the Sicily geodata slice and click-to-zoom (src/app/app.component.ts:125-180).
- Storing a requested key into `_social` (src/app/app.component.ts:102-104) and `onlyProv` (src/app/app.component.ts:55-58) are state updates. The model takes the active key and flag as parameters instead.
- The collapse flags and the KaTeX formula (src/app/app.component.ts:28-32) are UI only.
- The bundled datasets and the frequency table (src/app/app.component.ts:6-10) are JSON data. They are parameters.
- Raw JSON coercion is not modelled: rows arrive with their numeric columns already coerced (`None` for NaN). For example, JavaScript coerces an empty cell to 0. The marker's `value` is the coerced population, which equals the raw cell when the dataset stores numbers.
- JsNumber.Div: a zero divisor gives NaN (`None`), whereas JavaScript gives an infinity unless the dividend is also 0. The model therefore colours such a row as no data, where JavaScript can instead reach an infinite score and print `Infinity` (or `-Infinity`) as the alpha, for example for a non-YouTube row with zero residents and a positive follower count.
- Real arithmetic is exact. IEEE-754 rounding, and the decimal text JavaScript prints for `value + 0.2`, are not modelled.
- Colours are a datatype, not the formatted `rgb(...)`/`rgba(...)` strings with their padding.
- Colours.GetColor: `null` and NaN are the same `None`; the mapper treats them alike.
- A non-YouTube row with no `Frequenza` field makes `.trim()` throw. The model's rows always carry a label.
- Frequency-table lookups use a plain map. Keys that JavaScript resolves through the object prototype, such as `constructor`, are not modelled. Neither are table values that are not integers.
- JsText.LowerChar: lower-casing covers Basic Latin and Latin-1 Supplement only. Full Unicode case mapping, including mappings that change the length, is not modelled.

## Notes

- The province filter matches on the municipality's display name, not on
  population or province code.
- The filtered rows are a subset of the input, not always a strict one. If
  every row is a capital, all of them survive.
- An unknown platform key does not degrade gracefully in `loadChartData`.
  `getDataSocial` returns `null` and the loop over it throws. The model
  returns `None`.
- The empty label ranks 0 only if the frequency table has no entry for the
  empty string, because the code looks the empty label up like any other.
