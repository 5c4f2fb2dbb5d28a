# NDEP storm-event processing, modelled in Dafny

The NDEP scripts read yearly files of the NOAA Storm Events Database (SED).
They keep the events that a search filter accepts and normalise each kept
event (UTC times, numeric losses, overall sums). They group the events into
episodes and add up the losses per year and over the run. The repository has
two pipelines, and this project models the core of both:

- `index.js`, the current pipeline, is modelled by four modules.
  - `Ndep` holds the column headers, the search filters, a kept row's
    normalisation and the episode fold.
  - `NdepWords` holds the word test of the DO filter.
  - `NdepYear` holds `processSEDCsv`: the row handler, the end-of-file step,
    and the year's state as a class whose methods update it.
  - `NdepDriver` holds the `main` driver: the year expansion, the file names,
    the loop over the years and the shared loss totals.
- `backend/dust_processing/index.js`, the legacy dust converter, is modelled
  by five modules.
  - `DustFilters` holds the search-type and data-type switches.
  - `DustConvert` holds `convertDustDB`: its backward loop that splices,
    rewrites, totals and groups events.
  - `DustFrames` holds the `nextFrame` bookkeeping, as a `Frames` class over
    the script's global variables.
  - `DustCsv` holds the per-episode loss totals of `dustJSONtoCSV`, over one
    year's events and over the packed events of every year.
  - `DustCells` holds the cell-address split of `parseXLSX`.
- `JsValues`, `JsText`, `JsNumbers` and `JsKeys` state the JavaScript
  behaviour the scripts rely on:
  - JSON-like values and truthiness;
  - `toLowerCase` on ASCII letters, `split`, `join` and the letter filter
    `replace(/[^a-z]/g, "")`;
  - the prefixes that `parseFloat` and `parseInt` read after leading
    white space;
  - the order of `Object.keys`.
- `Lists` holds what both pipelines share: `concat` of a list of lists and
  element-wise sums.

The model follows the code as written, including behaviour that the authors
probably did not intend:

- **HTWD filter.** The comment at index.js:29 describes HTWD as "HWD or TWD".
  The code at index.js:228 computes `HWD && TWD`, so HTWD keeps no event
  (`Ndep.HtwdKeepsNothing`). The legacy converter's combined wind filter is
  the union (`DustFilters.CombinedWindIsUnion`).
- **Shared loss totals.** `yrLosses` is the shared `LOSS_HEADERS_ALL_DICT`
  object itself (index.js:197), and it is never reset.
  - After `n` years it holds every year's losses.
  - `allRes.losses` adds that growing object once per year, so it counts the
    first year `n` times, the second `n - 1` times, and so on
    (`NdepDriver.RunYearsLosses`).
- **Episode aliasing.** An episode object is its first event's object, which
  is also in `yrEvents` (index.js:266). Later events of the same episode
  therefore change that entry of the event list too
  (`NdepYear.StoredSnoc`, `NdepYear.YearOfEvents`).
- **Time zones.** The two pipelines look zones up differently.
  - index.js looks up `CZ_TIMEZONE` as a whole.
  - The legacy converter looks up the part before the first hyphen
    (`DustConvert.ZonePrefix`).
- **Episode order.** The episodes come out in `Object.keys` order: ids that
  are array indices first, in ascending order, then the other ids in
  insertion order (`JsKeys.OwnKeysOrder`).
- **Grouping order in the legacy converter.** The converter groups events
  from the last row back. An episode is therefore a copy of its last kept
  event, and it lists its event ids from last to first
  (`DustConvert.GroupedEpisode`).

I/O is replaced by parameters:

- A directory of input files is a `map` from file name (or year) to rows.
- The paths that already exist form a set.
- `new Date(text)` is a `parse: string -> Stamp` function.

Loss amounts are `real`.

## Model

| member | source | states |
|---|---|---|
| Ndep.EpisodeHeadersLayout | index.js:168-170 | The episode columns are the event columns with EVENT_IDS right after EVENT_ID and the nine `EPISODE_` loss totals right after DAMAGE_OVERALL. That is ten columns more than the event columns. |
| Ndep.IndexOf | index.js:169-170 | `indexOf` gives -1 exactly when the element is absent. Otherwise it gives the first position that holds the element. |
| Ndep.InsertAfterFirst | index.js:169-170 | A splice at `indexOf(anchor) + 1` inserts the items right after the anchor's first occurrence. |
| Ndep.InsertTwice | index.js:169-170 | The two splices, the second anchored later than the first, put each group of items after its own anchor. |
| Ndep.LossHeadersDistinct | index.js:87-104 | The six raw loss columns are pairwise distinct. So are the nine loss columns. |
| Ndep.FilterMeaning | index.js:206-229 | What each filter name accepts: A everything; EO the dust event types; E EO or DO; PE E except the excluded types; HWD and TWD their wind type with DO. A name outside the ten rejects every row. |
| Ndep.HtwdKeepsNothing | index.js:228 | HTWD, as `HWD && TWD`, accepts no row. |
| Ndep.FilterHierarchy | index.js:214-227 | PE, EO and DO each imply E. HWD implies HW and DO. TWD implies TW and DO. |
| NdepWords.ScanNarrative | index.js:209-212 | The word loop sets the flag exactly when some word qualifies. A word qualifies when, lower-cased and stripped to `a-z`, it starts with "dust" and is not "dusting". |
| NdepWords.SingleWordText | index.js:209-211 | A narrative without a space is one word. It passes exactly when that word, lower-cased and stripped to `a-z`, is a dust word. |
| NdepWords.DustPrefix | index.js:211 | Any word made of "dust" and anything but three more letters passes. |
| NdepWords.DustStormWord | index.js:209-211 | "Dust-storm," lower-cases and strips to "duststorm", which passes. |
| NdepWords.DustStormExample | index.js:209-211 | A narrative that is the word "Dust-storm," passes DO. |
| NdepWords.DustingWord | index.js:209-211 | "dusting." strips to "dusting", which does not pass. |
| NdepWords.DustingExample | index.js:209-211 | A narrative that is the word "dusting." does not pass DO. |
| Ndep.SearchFilters | index.js:206-228 | The `filters` object built for a row is the specified flag for every filter name. |
| Ndep.Keep | index.js:229 | A row is kept exactly when the chosen filter passes it. |
| Ndep.WithUtcTimes | index.js:232-241 | A row whose zone converts gains exactly the two `_UTC` columns. Each holds its local time read as UTC, moved back by the zone's offset, and is invalid exactly when the local time does not parse. Any other row is returned unchanged. |
| Ndep.ConvertEndpoints | index.js:233-237 | The BEGIN/END loop produces `WithUtcTimes` of the row. |
| Ndep.ParseLoss | index.js:245-252 | A parsed loss is never negative. It is 0 whenever `parseFloat` gives NaN. |
| Ndep.ParseLossOfDecimal | index.js:245-252 | `whole.frac` followed by an optional unit letter reads as its decimal value. The value is multiplied by 1e3 for `K` and by 1e6 for `M`. |
| Ndep.ParseLossOfWhole | index.js:245-252 | Digits followed by an optional unit letter read as their value times the unit. |
| Ndep.WholeLossExamples | index.js:245 | "" and "0" read as 0, and "12" as 12. |
| Ndep.UnitLossExamples | index.js:245-252 | "3K" reads as 3000, and a bare "K" as 0. |
| Ndep.FiveThousandExample | index.js:245-249 | "5K" reads as 5000. |
| Ndep.ParseLossAfterSpace | index.js:245-252 | White space in front of an amount changes nothing: `parseFloat` skips it and the unit is still the last character. |
| Ndep.SpacedLossExample | index.js:245-249 | " 5K" reads as 5000, like "5K". |
| Ndep.MillionsExample | index.js:250-251 | "1.5M" reads as 1500000. |
| Ndep.ThousandsExample | index.js:247-248 | "0.25K" reads as 250. |
| Ndep.ScaleByUnit | index.js:246-252 | The `switch` multiplies by 1e3 after `K` and by 1e6 after `M`. It leaves any other value as it is. |
| Ndep.ParseLosses | index.js:244-254 | The loop replaces each raw loss column, in order, by the amount read from its text. |
| Ndep.LossesParsedAt | index.js:244-254 | After the loop, each parsed column holds its amount. Every other column is unchanged. |
| Ndep.WithOverall | index.js:255-257 | The sums add exactly the three `_OVERALL` columns. No other column changes. |
| Ndep.WithOverallAt | index.js:255-257 | Each overall column is the sum of its two parts. |
| Ndep.NormalizeWithKeeps | index.js:231-257 | A kept row's columns that the handler does not compute keep their values. No other column appears. |
| Ndep.NormalizeWithTimes | index.js:232-241 | After normalisation, the UTC columns are present exactly when the zone converts. They then hold the converted times. |
| Ndep.NormalizedRawLoss | index.js:244-254 | A stored event's raw loss is `ParseLoss` of the row's text. |
| Ndep.NormalizedOverall | index.js:255-257 | A stored event's overall loss is the sum of what `ParseLoss` reads from its two parts. |
| Ndep.NormalizedIsEvent | index.js:231-261 | A row of a storm-events file becomes an event of the shape `yrEvents` holds. |
| Ndep.MergeFields | index.js:270-274 | The merged episode has the keys of both records. Each of the event's keys takes its merged value: copied when the episode lacks it, "(Multiple values)" when the two differ, kept when they are equal. Keys only the episode has are unchanged. |
| Ndep.SeedIds | index.js:266 | The first event's EVENT_IDS is its own EVENT_ID. |
| Ndep.SeedTotal | index.js:267-276 | The first event's episode totals are its own losses. |
| Ndep.SeedField | index.js:266 | The first event keeps its ordinary properties. |
| Ndep.StepIds | index.js:269 | A later event's id is appended to EVENT_IDS after a comma. |
| Ndep.StepTotal | index.js:276 | A later event's losses are added to each episode total. |
| Ndep.StepField | index.js:270-274 | For an ordinary property, a later event's value is copied when the episode lacks it. It becomes "(Multiple values)" when it differs, and is kept when equal. |
| Ndep.AgreementSnoc | index.js:270-274 | The merge rule keeps this true as each record comes: a property holds the value all records agree on, or "(Multiple values)" once two disagree. |
| Ndep.FoldIntoField | index.js:264-276 | After the fold, an ordinary property is present exactly when some event has it. It is "(Multiple values)" exactly when two events disagree on it. Otherwise it is the value they agree on. |
| Ndep.FoldIntoIds | index.js:266-269 | EVENT_IDS is the comma-join of the episode's event ids in file order. |
| Ndep.FoldIntoTotals | index.js:267-276 | Each episode total is its start plus the column's sum over the folded events. |
| NdepYear.EpisodeFromIsFold | index.js:264-276 | The episode stored at an episode's first event is the fold of all of that episode's events. |
| NdepYear.StoredSnoc | index.js:261-276 | Storing one more event changes only the `yrEvents` entry of the episode it joins. That entry is the episode's first event, which is the same object as the episode. |
| NdepYear.StoredLast | index.js:261-267 | The last stored entry is the seeded episode when the event is first of its episode. Otherwise it is the event itself. |
| NdepYear.AddEventFirst | index.js:264-265 | A new event is the first of its episode exactly when its id is not yet in `yrEpisodes`. |
| NdepYear.AddEventInv | index.js:261-276 | Grouping one more event keeps the year's invariant: `yrEvents` is the kept events with each episode folded into its first event, and `yrEpisodes` points at those first events. |
| NdepYear.Counted | index.js:203 | Counting a row increments `yrCntAllEvents` and changes nothing else. |
| NdepYear.AddRowCases | index.js:202-229 | The handler's two outcomes make up one row step. A kept row is counted and stored; any other row is only counted. |
| NdepYear.ProcessRowsInv | index.js:202-277 | After any rows, the year's state is the kept rows, normalised, grouped into episodes. |
| NdepYear.ProcessRowsCount | index.js:203 | Every row is counted, kept or not. |
| NdepYear.ProcessRowsWarnings | index.js:238-241 | Each kept row whose time zone does not convert is logged exactly once. |
| NdepYear.FirstSeenMembers | index.js:264-265 | The ids of `yrEpisodes` are exactly the episode ids of the kept events. |
| NdepYear.FirstSeenDistinct | index.js:264-265 | Each episode id is added once. |
| NdepYear.AddAllLossesSum | index.js:258 | Each loss total grows by its column's sum over the kept events. |
| NdepYear.FinishEpisodes | index.js:279 | The episode list has one entry per episode id, in `Object.keys` order. Each entry is the fold of that episode's events. |
| NdepYear.FoldTotal | index.js:267-276 | An episode's total of a loss is the sum of that loss over its events. |
| NdepYear.MembersPartition | index.js:264-276 | Grouping into episodes neither loses nor doubles a loss: the episodes partition the events. |
| NdepYear.FinishPreservesLosses | index.js:279 | At the end of the file, the episodes' totals of a loss add up to that loss summed over the kept events. |
| NdepYear.ZeroTotals | index.js:105-106 | The loss template has one zero per loss column. |
| NdepYear.LossTotals.constructor | index.js:105-106 | The totals object starts as the zero template. |
| NdepYear.LossTotals.AddEvent | index.js:258 | The totals object gains the event's nine losses. |
| NdepYear.ZeroColumns | index.js:267 | The loop sets each `EPISODE_` total to 0 and touches nothing else. |
| NdepYear.AddColumns | index.js:276 | The loop adds the event's losses to the `EPISODE_` totals and touches nothing else. |
| NdepYear.MergeEvent | index.js:270-274 | The `Object.keys(event)` loop produces `MergeFields` of the two records, in whatever order the keys come. |
| NdepYear.MergeKey | index.js:271-273 | Merging one key sets exactly that key to its merged value. |
| NdepYear.MergedOnAll | index.js:270-274 | Once every key of the event is merged, the episode is the merge of the two records. |
| NdepYear.NormalizeRow | index.js:231-257 | A kept row becomes its normalised event. The handler reports whether the zone converted. |
| NdepYear.CollectEpisodes | index.js:279 | `ids.map(id => yrEpisodes[id])` gives the episode object of each id, in order. |
| NdepYear.YearProcessor.constructor | index.js:194-197 | A year starts with empty events, episodes and counter. Its loss totals are the shared object. |
| NdepYear.YearProcessor.Group | index.js:264-276 | The episode bookkeeping of one stored event is the grouping step `AddEvent`. |
| NdepYear.YearProcessor.StartEpisode | index.js:264-267 | The first event of an episode becomes the seeded episode. |
| NdepYear.YearProcessor.JoinEpisode | index.js:268-276 | A later event is folded into its episode's object, which is also in `yrEvents`. |
| NdepYear.YearProcessor.HandleRow | index.js:202-277 | One row is counted. A row the filter keeps is normalised, added to the shared totals, stored and grouped. A rejected row changes only the counter. |
| NdepYear.YearProcessor.HandleKept | index.js:231-276 | A kept row is normalised, its warning logged when needed, its losses added to the totals, and it is stored and grouped. |
| NdepYear.YearProcessor.Store | index.js:238-276 | A normalised event is warned about, totalled, pushed and grouped. |
| NdepYear.YearProcessor.HandleRows | index.js:200-277 | After every row of the file, the state is `ProcessRows` of the rows. The shared totals have gained the losses of the kept rows. |
| NdepYear.YearProcessor.EndOfFile | index.js:278-291 | The end step resolves with the events, the counter, the episode objects in `Object.keys` order and the totals. |
| NdepYear.ProcessSedCsv | index.js:190-294 | A missing file rejects with "The SED file ... was not found." and leaves the totals alone. Otherwise the year resolves with its results, and the shared totals gain the kept losses. |
| NdepYear.YearOfEvents | index.js:286-291 | A year counts all its rows. Its event list has one entry per kept row: the normalised row, except that each episode's first event holds the whole episode. |
| NdepYear.YearOfEpisodes | index.js:279 | The `j`-th episode is the fold of the events of the `j`-th id in `Object.keys` order. |
| NdepYear.YearOfLosses | index.js:258 | A year's totals are its starting totals plus the kept events' losses. Its episodes' totals add up to those kept losses. |
| NdepDriver.YearRange | index.js:313 | The years from `lo` to `hi`, in order, and none when `lo > hi`. |
| NdepDriver.PushRange | index.js:313 | The `for` loop appends the years of the range. |
| NdepDriver.PushYears | index.js:310-314 | One entry appends its years: a number as it is, a string its range. |
| NdepDriver.ExpandYears | index.js:308-315 | The `forEach` produces the expanded year list. |
| NdepDriver.RangeText | index.js:312-313 | "a-b" expands to the years from `a` to `b`. |
| NdepDriver.SpacedRangeText | index.js:312-313 | "a - b", with spaces around the hyphen, expands to the same years as "a-b", because `parseInt` stops at the space after `a` and skips the one before `b`. |
| NdepDriver.SpacedSplit | index.js:312 | `split("-")` of "a - b" gives "a " and " b". |
| NdepDriver.PlainTextYear | index.js:312-313 | A year written as a string without a hyphen has no second endpoint, so it adds no year. |
| NdepDriver.ExpandedYearsOrder | index.js:308-315 | A year is expanded exactly when some entry contributes it. Expansion keeps the input order. |
| NdepDriver.ReplaceLeavesNoYyyy | index.js:324 | Replacing every match of `/YYYY/gi` by a year leaves no match in the name. |
| NdepDriver.ReplaceWithoutMatch | index.js:324 | A name without a match is left as it is. |
| NdepDriver.FileName | index.js:324 | A year's file name has no `YYYY` left, in any letter case. |
| NdepDriver.FileNameShipped | index.js:15 | With the shipped template, a year's file is "SED-<year>.csv". |
| NdepDriver.AddYearLosses | index.js:330 | The loop adds a year's losses to `allRes.losses`, key by key. |
| NdepDriver.RunYearsStep | index.js:323-335 | One more file is one more pass of the loop over the state before it. |
| NdepDriver.RunYearsStays | index.js:331-333 | Once a year is rejected, the later years change nothing. |
| NdepDriver.RunYearsFound | index.js:323-335 | The loop gets through all the years exactly when every file is found. |
| NdepDriver.RunYearsFirstMissing | index.js:331-333 | The first missing file ends the run with its message. Nothing of the earlier years is kept. |
| NdepDriver.RunYearsContents | index.js:327-329 | When every file is found, `allRes` holds each year's events and episodes in turn and counts every row. |
| NdepDriver.RunYearsLosses | index.js:330 | The shared totals (index.js:197, 258) hold the sum of the years' losses. `allRes.losses` holds the first year's losses `n` times, the second's `n - 1` times, down to the last year's once. |
| NdepDriver.AdvanceLosses | index.js:327-330 | One year adds its kept losses to the shared totals. It then adds the grown totals to `allRes`. |
| NdepDriver.YearOfTotalsFree | index.js:286-291 | A year's events, episodes and row count do not depend on the totals it starts from. |
| NdepDriver.NextYear | index.js:324-333 | One pass of the loop: the year's file is processed, or its rejection stops the run. The shared totals follow. |
| NdepDriver.RunYearsLoop | index.js:323-335 | The loop over the expanded years is `RunYears` over their file names. |
| NdepDriver.RunPipeline | index.js:299-344 | `main` ends in one of four ways: an existing output path, "no valid years", the first rejected year, or the completed `allRes` with its output path. |
| DustFilters.MatchesDustIff | backend/dust_processing/index.js:235 | The regular-expression test succeeds exactly when `/ dust($\|[^i])/` matches at some position. |
| DustFilters.DustMatches | backend/dust_processing/index.js:235 | " dust" matches at the end of a text and before any character but `i`. |
| DustFilters.DustRefusals | backend/dust_processing/index.js:235 | The test refuses " dusting", " Dust" (it is case-sensitive) and "dust" (it needs the space). |
| DustFilters.ScanNarratives | backend/dust_processing/index.js:229-237 | The narrative loop sets the flag exactly when one of the narratives passes the test. |
| DustFilters.MatchesSearchType | backend/dust_processing/index.js:224-306 | The `switch` with its fall-through computes the specified filter for each search type. |
| DustFilters.FiltersNest | backend/dust_processing/index.js:278-302 | Partial Exhaustive and Event Only each imply Exhaustive. Exhaustive implies Event Only or a dust narrative. |
| DustFilters.CombinedWindIsUnion | backend/dust_processing/index.js:262-277 | The combined wind filter accepts exactly what the high-wind or thunderstorm-wind filter accepts. |
| DustFilters.MatchesBoth | backend/dust_processing/index.js:308-322 | An event is retained exactly when it passes the search filter and the data-type filter. |
| DustConvert.AttachPoints | backend/dust_processing/index.js:325-345 | The `points.forEach` loop attaches the specified `begin` and `end` objects. |
| DustConvert.DateDecomposition | backend/dust_processing/index.js:327-331 | A year-month is the year times 100 plus the month, and a time is the hour times 100 plus the minute. Each remainder is below 100. |
| DustConvert.ZonePrefix | backend/dust_processing/index.js:333 | Only the part before the first hyphen names the zone. |
| DustConvert.PointTimeShift | backend/dust_processing/index.js:333-335 | An unknown zone gives an invalid date. A known one moves the local reading back by its offset in hours. |
| DustConvert.ParseDamages | backend/dust_processing/index.js:347-365 | The loop replaces each money column by null when falsy, and otherwise by its amount times its unit. |
| DustConvert.GroupLosses | backend/dust_processing/index.js:367-378 | The event gains a `losses` object keyed by the lower-cased loss names. |
| DustConvert.LossesObjectAt | backend/dust_processing/index.js:377 | Each key of `losses` holds its own column's value, or null when that value is falsy. |
| DustConvert.DeleteAllKeys | backend/dust_processing/index.js:380-439 | Deleting the listed keys removes exactly those keys and keeps every other value. |
| DustConvert.DeleteKeys | backend/dust_processing/index.js:437-439 | The `delete` loop gives `DeleteAll`. |
| DustConvert.RewriteEvent | backend/dust_processing/index.js:324-439 | A kept event is rewritten with its points, parsed damages and `losses`, minus the deleted columns. |
| DustConvert.RewrittenKeeps | backend/dust_processing/index.js:324-439 | A column the rewrite neither adds nor deletes keeps its value. |
| DustConvert.RewrittenIds | backend/dust_processing/index.js:380-439 | The rewritten event keeps EVENT_ID and EPISODE_ID and has no `events`. |
| DustConvert.RewrittenLosses | backend/dust_processing/index.js:347-378 | The rewritten `losses` has every loss key. Each adds to the totals what the raw row says: a count, a parsed amount, or 0. |
| DustConvert.AddLossTotals | backend/dust_processing/index.js:441-450 | The loop adds `losses[l] \|\| 0` to each total. |
| DustConvert.FileUnderEpisode | backend/dust_processing/index.js:452-461 | The first event met for an episode starts a copy of itself (less EVENT_ID and EVENT_NARRATIVE), and a new key joins the key order. Every event pushes its EVENT_ID. |
| DustConvert.EpisodeList | backend/dust_processing/index.js:464 | There is one episode per key, in key order. |
| DustConvert.EpisodeListFrom | backend/dust_processing/index.js:464 | Every listed episode is the group of one of the keys. |
| DustConvert.Order | backend/dust_processing/index.js:464 | The episode keys are distinct, and they are exactly the keys of the `episodes` object. |
| DustConvert.FoldStep | backend/dust_processing/index.js:319-450 | Meeting a row, the backward loop adds its rewrite to the events and its raw losses to the totals when it is retained. Otherwise it changes neither. |
| DustConvert.FoldGroupStep | backend/dust_processing/index.js:452-461 | Meeting a row, the backward loop files a retained row under its episode. A new key is appended to the order. |
| DustConvert.RejectStep | backend/dust_processing/index.js:319-322 | A rejected row is spliced out and changes nothing else. |
| DustConvert.KeepStep | backend/dust_processing/index.js:324-461 | A kept row is replaced by its rewrite, added to the totals and filed under its episode. |
| DustConvert.KeepEvent | backend/dust_processing/index.js:324-461 | The loop body for a kept event rewrites it, totals it and files it. |
| DustConvert.ConvertStep | backend/dust_processing/index.js:221-462 | One pass of the backward loop keeps the loop invariant. Rows before `i` are untouched; the rest are converted, totalled and grouped. |
| DustConvert.ConvertDustDB | backend/dust_processing/index.js:161-476 | The callback receives:<br>• the retained events, rewritten, in file order;<br>• the row count;<br>• the episodes in key order;<br>• the totals of the retained rows. |
| DustConvert.LastKept | backend/dust_processing/index.js:221 | The first event of an episode that the backward loop meets is the last kept one in file order. |
| DustConvert.GroupedEpisode | backend/dust_processing/index.js:452-461 | An episode exists exactly when one of its events is kept. It is then a copy of its last kept event that lists the kept ids from the last one back. |
| DustCsv.FindFirst | backend/dust_processing/index.js:494 | `find` fails exactly when no event has the id. Otherwise it returns the first event that has it. |
| DustCsv.LossOfId | backend/dust_processing/index.js:494 | The lookup throws exactly when no event has the id or its `losses` is missing or null. Otherwise it reads the loss, or 0. |
| DustCsv.SumFor | backend/dust_processing/index.js:493-495 | The inner loop completes exactly when every one of the episode's ids can be looked up. |
| DustCsv.EpisodeSums | backend/dust_processing/index.js:491-496 | The totals exist exactly when every key's sum exists, and then hold those sums. |
| DustCsv.EpisodeTotals | backend/dust_processing/index.js:491-496 | The nested loops compute `EpisodeSums`. |
| DustCsv.ConvertedFind | backend/dust_processing/index.js:494 | With unique ids, a kept row's id finds that row's rewritten event. |
| DustCsv.SumsOverEpisode | backend/dust_processing/index.js:491-496 | Over an episode's id list, each sum is what the episode's kept rows add to that loss. |
| DustCsv.EpisodeTotalsIn | backend/dust_processing/index.js:491-496 | In any list of events where every kept row's id finds that row's losses, every `total_<loss>` of an episode is the sum of that loss over the episode's kept rows. |
| DustCsv.EpisodeTotalsOfYear | backend/dust_processing/index.js:491-496 | Searched in one year's own converted events, with unique EVENT_IDs, every `total_<loss>` of an episode is the sum of that loss over the episode's kept rows. |
| DustCsv.FindPastFront | backend/dust_processing/index.js:494 | `find` over `a + b`, where no event of `a` has the id, finds what it finds in `b`. |
| DustCsv.FindInFront | backend/dust_processing/index.js:494 | `find` over `a + b`, where `a` has an event with the id, finds what it finds in `a`. |
| DustCsv.FindInParts | backend/dust_processing/index.js:494 | In the concatenated years, an id that year `t` finds, and that no earlier year's event carries, finds the same event. |
| DustCsv.ConvertedIds | backend/dust_processing/index.js:380-439 | Every converted event carries the EVENT_ID of one of the year's rows. |
| DustCsv.ApartLacks | backend/dust_processing/index.js:380-439 | A year whose rows share no EVENT_ID with another year's rows converts to events that carry none of that year's ids. |
| DustCsv.EarlierYearsLack | backend/dust_processing/index.js:621 | With EVENT_IDs unique across years, no event that `data` holds from an earlier year carries the id of a row of year `t`. |
| DustCsv.FoundInYear | backend/dust_processing/index.js:494 | Within year `t`'s own events, a kept row's id finds that row's rewritten event. |
| DustCsv.PackedFind | backend/dust_processing/index.js:481-494 | In the packed `events`, a kept row's id finds that row's own rewritten event. |
| DustCsv.PackedLossesFound | backend/dust_processing/index.js:481-494 | In the packed `events`, every kept row's id finds that row's losses. |
| DustCsv.PackedEpisodeFrom | backend/dust_processing/index.js:623 | Every episode of the packed run is the group of some episode key of some year. |
| DustCsv.PackageEpisodeTotals | backend/dust_processing/index.js:481-496 | `dustJSONtoCSV` on the packed run (`web_data.json`, called at lines 668-674): with EVENT_IDs unique over all the years' rows, every `total_<loss>` of an episode of any year, its events looked up among every year's events, is the sum of that loss over the episode's kept rows. |
| DustFrames.Frames.constructor | backend/dust_processing/index.js:571-582 | The run starts at the first year, with splits `[0]`, no data, a zero count and zero totals. |
| DustFrames.Frames.NextFrame | backend/dust_processing/index.js:602-678 | The first call changes nothing but the counter. A later call appends the year's events and episodes, adds its counts and losses, and pushes a split while years remain. |
| DustFrames.SplitsStep | backend/dust_processing/index.js:617-620 | Each pushed split is the next running total of the years' sizes. |
| DustFrames.SplitsLocate | backend/dust_processing/index.js:617-623 | Each year's part sits in the concatenation at the offset its split records. |
| DustFrames.ResultsAt | backend/dust_processing/index.js:621 | Year `t`'s part of the results is the conversion of that year's file. |
| DustFrames.PackageSplits | backend/dust_processing/index.js:642-651 | In the package, every year's events and episodes lie at their splits. |
| DustFrames.FilteredAtMostTotal | backend/dust_processing/index.js:645-648 | `counts.filtered` never exceeds `counts.total`. |
| DustFrames.HoldsStep | backend/dust_processing/index.js:617-626 | A `nextFrame` call after a year keeps the globals in step with the results so far. |
| DustFrames.Advance | backend/dust_processing/index.js:616-636 | A call after a year takes in its results and names the next year, or packing. |
| DustFrames.PackedHolds | backend/dust_processing/index.js:638-651 | Once every year is back, the globals are the package of the results and their summed losses. |
| DustFrames.FirstMissing | backend/dust_processing/index.js:164 | The first year whose file is missing, if any. Every earlier year has its file. |
| DustFrames.FirstMissingAt | backend/dust_processing/index.js:164 | A missing year whose predecessors are all present is the first missing year. |
| DustFrames.ConvertFile | backend/dust_processing/index.js:473-475 | The callback receives the year's converted results. |
| DustFrames.RunYear | backend/dust_processing/index.js:628-636 | A missing file ends the run at the first missing year. Otherwise one more year is converted and taken in. |
| DustFrames.Finish | backend/dust_processing/index.js:638-651 | Once every year is back, the output is the run's package and totals. |
| DustFrames.RunFrames | backend/dust_processing/index.js:602-680 | The run over `first..last` packs every year's results in order, or stops at the first missing year. |
| DustCells.DigitIndexFrom | backend/dust_processing/index.js:120-126 | `digit_idx` is the first position whose character is not NaN, or 0 when there is none. |
| DustCells.SplitCell | backend/dust_processing/index.js:115-128 | The loop with its `break` splits a cell address. It skips the `!` entries. |
| DustCells.AddressRoundTrip | backend/dust_processing/index.js:120-128 | Capital letters followed by a row number split back into that column and that row. |
| DustCells.AddressWithoutDigit | backend/dust_processing/index.js:120-128 | An address without a digit gives an empty column and a NaN row. |
| JsKeys.OwnKeysOrder | index.js:279 | `Object.keys` lists the array-index keys first, in ascending order, then the other keys in insertion order. |
| JsKeys.OwnKeysDistinct | index.js:279 | Keys added once each are listed once each, and no others. |
| JsNumbers.ParseFloatOfDecimal | index.js:245 | `parseFloat` of `whole.frac` followed by a non-digit reads exactly that numeral. |
| JsNumbers.ParseFloatOfWhole | index.js:245 | `parseFloat` of digits followed by neither a digit nor a point reads the digits. |
| JsNumbers.ParseFloat | index.js:245 | `parseFloat` gives a number exactly when, after leading white space, the text starts with digits or with a point and digits. The number is never negative. |
| JsNumbers.ParseInt | index.js:312 | `parseInt` gives a number exactly when, after leading white space, the text starts with a digit. |
| JsNumbers.ParseAfterSpace | index.js:312 | Leading white space changes neither what `parseInt` reads here nor what `parseFloat` reads at line 245. |
| JsNumbers.ParseIntStops | index.js:312 | `parseInt` stops at the first non-digit: digits followed by other text read as the digits alone. |
| JsNumbers.ParseIntOfNatToString | index.js:312 | `parseInt` reads back what `String` prints. |
| JsText.TrimStartSkipsSpace | index.js:312 | Trimming removes a prefix made only of white space and keeps the rest as it is. The result does not start with white space. |
| JsText.TrimStartAfterSpace | index.js:312 | Any white space in front of a text is removed by trimming. |
| JsText.SplitJoin | index.js:209 | Splitting a text and joining the pieces with the same separator gives back the text. |
| JsText.KeepLetters | index.js:210 | `replace(/[^a-z]/g, "")` keeps only lower-case letters and never lengthens the word. |
| JsText.KeepLettersAppend | index.js:210 | The filter works character by character: the filtered concatenation is the concatenation of the filtered parts. |
| JsText.KeepLettersOfLetters | index.js:210 | A word of lower-case letters is kept whole. |
| JsText.KeepLettersOfNonLetters | index.js:210 | A word with no lower-case letter is deleted entirely. |
| JsText.LowerAppend | index.js:209 | Lower-casing a concatenation lower-cases each part. |
| JsText.LowerWithoutUpper | index.js:209 | Text without a capital letter is unchanged by lower-casing, so lower-casing twice is lower-casing once. |
| JsText.CleanDustStorm | index.js:209-210 | "Dust-storm," lower-cases and strips to "duststorm". |
| JsText.CleanDusting | index.js:209-210 | "dusting." lower-cases and strips to "dusting". |
| JsValues.ShiftHours | index.js:235 | Shifting an instant by whole hours moves it by 3600000 ms per hour. An invalid date stays invalid. |

## Left out

- **File and stream I/O.** Reading files and directories, writing the
  output package and CSV files, and creating or cleaning directories are
  not modelled. Their inputs are parameters, and the model returns the
  values that would be written. This covers `mkdirSync` at index.js:344, the
  directory setup of `nextFrame` at backend/dust_processing/index.js:603-615,
  and the writing at 652-676.
- **Dates and times.**
  - `new Date(...)` parsing is the `parse` parameter.
  - `toUTCString` keeps the instant.
  - The legacy converter stores `new Date(UTCtime).toString()` as each point's
    `time` (backend/dust_processing/index.js:337). That text is in the
    machine's local zone, so `DustConvert.PointObject` keeps the instant
    itself (`Time(stamp)`) in place of the text.
  - The package's `date` and the timing values are left out.
- **Logging.** Console output and `log.append` are left out. The one
  exception is the unrecognised-zone warning, which is counted.
- **Callbacks.** `async`/`await`, promises and `setImmediate` callbacks
  become sequential calls.
- **Numbers.** Floating point becomes `real`, so rounding and overflow are
  not modelled.
- **`parseFloat` and `parseInt`.** Leading white space is skipped, as in
  JavaScript. After it, only the numeral prefixes that loss amounts and
  year numbers use are modelled: digits, an optional fraction, then the
  rest. Signs, exponents, `Infinity` and `parseInt`'s "0x" prefix are not.
  An amount such as "-1K" therefore reads as NaN, so 0, in the model, where
  JavaScript reads -1000. A year range written with plus signs, such as
  "+1998-+2000", expands to no years in the model, where JavaScript's
  `parseInt` reads 1998 and 2000. A minus sign never reaches `parseInt` for
  years, because `split("-")` removes it first (index.js:312).
- JsText.Lower: `toLowerCase` is modelled for the ASCII letters A-Z only.
  Other characters are left as they are. JavaScript also lower-cases
  non-ASCII capitals, some of them into two characters. For example, it
  turns "DUSTİNG" (with U+0130) into "dusti" followed by a combining dot and
  "ng", which strips to "dusting" and fails DO. In the model the same word
  strips to "dustng" and passes.
- **Rows of other shapes.** Rows are assumed to have the shape the parsers
  deliver (`StormRow`, `DustRow`). Rows whose missing columns would throw
  or give NaN are not covered. In a `DustRow`, a non-empty money column is a
  text that starts with a numeral the model reads. Anything may follow the
  numeral ("1.5 M", "2KK"), and the unit is its last character, as
  `slice(-1)` takes it.
- **Inherited keys.** Keys inherited from `Object.prototype` (a filter name
  or EPISODE_ID such as "constructor") are not modelled. Objects have only
  their own properties.
- **`dustJSONtoCSV`.** The flattening of `begin` and `end` (484-490), the
  deletion of `losses` and the CSV writing are left out. Only the totals
  loop (491-496) is modelled.
- **`parseXLSX`.** The cell-value handling (130-148) and the workbook
  reading are left out. Only the address split is modelled.
- **Output path.** `OutputPath` fixes the output directory as
  "./data/out/", its value in the script.
- DustCsv.FindEvent: the lookup compares ids by value equality. JavaScript's
  `==` would also match the number 12 with the text "12". Converted events
  keep the row's id value, so this only matters for mixed-type id lists.
- DustCsv.PackageEpisodeTotals: stated only when EVENT_IDs are unique over
  all the years' rows. With a repeated id, `find` returns the earliest event
  that has it, possibly from another year, and that event's losses are
  summed instead. The package's JSON round trip (`JSON.stringify` at
  backend/dust_processing/index.js:652, `JSON.parse` at 481) is taken to give
  back the same records.
- DustCsv.LossOfId: a `losses` value that is not a number counts as 0,
  because the `losses` objects the converter builds hold only numbers and
  null. JavaScript would instead concatenate text onto the running total.
