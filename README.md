# vidstats, modelled in Dafny

vidstats is a single Go program (`main.go`) that collects public YouTube channel
statistics and writes a CSV report:

1. It builds a pool of channel identifiers. The pool starts from a curated "science team"
   list and grows by batches scraped from a random-channel service until it holds at
   least 110 identifiers.
2. It fetches each channel's daily samples (subscribers, views, videos) five identifiers
   per request.
3. It collapses every channel's samples into one averaged sample per month number.
4. It classifies the channels into the science team and the rest, computes the date
   window over all samples, and sorts each channel's samples by time.
5. It lays out a grid: a header of month labels, then one row per channel, known
   channels first. Each column contributes one cell per sample of that (month, year),
   holding its views, or a single empty cell when there is none.

This project models that pipeline, from the identifier pool to the `[][]string` grid
handed to the CSV writer, and proves what each stage guarantees. Its modules follow the
program's stages:

- `Types`: dates, samples and channels.
- `Decimal`: `strconv.Itoa`.
- `Discovery`: the identifier pool and the map-key list.
- `Chunking`: `min` and the request loop.
- `Aggregation` and `AggregationFacts`: the monthly averages.
- `Sorting`: the postcondition of `sort.Slice`.
- `Table`: the header and `createListing`.
- `Report`: the classification, window and sort loop, and the grid.
- `Pipeline`: `downloadStats` end to end.
- `TeamFacts`: facts about the curated team list.
- `Scenarios`: worked windows.

The loops of the program are methods with loop invariants. Each is proved equal to a
specification function, and the properties are proved about those functions.

Network requests, the clock and Go's map iteration order are inputs of the model:

- The random-channel service is a sequence of attempts. A failed attempt is `None`.
- The statistics service is a function from a chunk of identifiers to an optional list
  of channels.
- `time.Now()` is a parameter.
- Map iteration picks an arbitrary remaining key (`:|`).

Behaviours of `main.go` worth knowing, all of which the model reproduces:

- The header starts one month after the earliest sample's month (`startMonth =
  startDate.Month() + 1`). That month has no column when the window spans two years.
- The header begins with a "Channel name" cell.
- The two header loops are independent. When the window starts and ends in the same
  year, every month from `startMonth` to `endMonth` gets two columns. January up to
  `startMonth - 1` also gets columns.
- `createListing` appends one cell for every matching sample (there is no `break`).
  A row is as long as the header exactly when no header column matches two samples.
  One sample per (month, year) is enough.
- Only `startYear` and `endYear` get columns: when the window spans more than two
  years, the years in between get none.
- When the channels are present but none has a sample, the window is simply
  (now, epoch).
- The window is computed before each channel's samples are sorted, in the same loop as
  the classification.
- Averages use Go's `/`, which truncates toward zero.

## Model

| member | source | states |
|---|---|---|
| Types.BeforeIsStrictTotalOrder | main.go:189-199 | `Before` (time.Before, with After as its mirror) is irreflexive, asymmetric, transitive and total on distinct dates |
| Decimal.NatToString | main.go:211 | the decimal form of a natural is non-empty, all digits, with no leading zero |
| Decimal.IntToStringRoundTrip | main.go:268 | reading back the decimal form of any integer gives that integer |
| Decimal.IntToStringInjective | main.go:268 | distinct integers have distinct, non-empty decimal forms |
| Discovery.AddChannels | main.go:304-308 | the new set is the old set plus every given identifier; nothing is removed |
| Discovery.Attempt | main.go:325-334 | one loop iteration: a failed request adds nothing, a successful one adds its whole batch |
| Discovery.Discover | main.go:319-336 | the pool is the seed plus the batches of the attempts consumed; the loop stops exactly when the pool reaches 110 or the attempts run out; every pool before the last attempt was below 110, so no batch is fetched after the threshold |
| Discovery.GatheredGrows | main.go:324-336 | the identifiers gathered by a prefix of the attempts are among those gathered by all of them |
| Discovery.DiscoveredContainsSeedAndBatches | main.go:319-336 | the pool contains the seed and every batch gathered so far |
| Discovery.Keys | main.go:343-346 | the key list holds every pool identifier exactly once, in some order |
| Discovery.RegexToChannel | main.go:453-459 | the result has one element per submatch list, element i being its group 1 |
| Chunking.Min | main.go:63-70 | the result is at most both arguments and equal to one of them |
| Chunking.ChunkAt | main.go:349-352 | N keys give ceil(N/5) chunks, chunk i being keys[5i..min(5i+5, N)] |
| Chunking.ChunkSizes | main.go:350 | chunk i holds min(5, N - 5i) identifiers, between 1 and 5 |
| Chunking.ChunksConcatenate | main.go:349-352 | the chunks concatenated in order give back the key list |
| Chunking.FetchAllFailureIsFinal | main.go:356-357 | once a request fails, the whole fetch fails |
| Chunking.FetchAllInOrder | main.go:359 | when every request succeeds, the result is each chunk's channels in chunk order |
| Chunking.FetchInChunks | main.go:349-361 | the loop's result is the fetch of the chunks in order; it makes one request per chunk when all succeed, and at least one for a non-empty key list |
| Aggregation.Quo | main.go:391-393 | Go's `/`: the quotient truncated toward zero (bounds for both signs of the dividend) |
| Aggregation.BucketMembers | main.go:371-375 | every sample of a month's bucket comes from the input, has views and belongs to that month |
| Aggregation.BucketNonEmpty | main.go:371-375 | a month's bucket is non-empty exactly when some input sample with views falls in that month |
| Aggregation.BucketHead | main.go:373-380 | a bucket's first sample is the first sample with views of that month, in input order |
| Aggregation.AveragedMonth | main.go:380-390 | the averaged sample keeps the month of its bucket |
| Aggregation.GroupByMonth | main.go:370-376 | the map has a key for each month with a sample with views, holding exactly that month's bucket |
| Aggregation.SumCounters | main.go:381-388 | the running sums are the bucket's totals of the three counters |
| Aggregation.AverageBucket | main.go:378-394 | the emitted sample is the bucket's first time with the truncated means of its counters |
| Aggregation.EmitAverages | main.go:377-397 | one averaged sample per non-empty map entry, in any order, no two with the same month |
| Aggregation.DistinctMonthsSnoc | main.go:389 | appending a sample of a new month keeps the months distinct |
| Aggregation.AggregateMonthly | main.go:366-398 | the result is an aggregation of the input: one averaged sample per month with a sample with views, none for other months, months distinct |
| AggregationFacts.DistinctMonthsCardinality | main.go:370 | samples with distinct months cover as many months as there are samples |
| AggregationFacts.AggregationSize | main.go:370-397 | there are as many outputs as distinct months among the samples with views |
| AggregationFacts.AggregationEmptyIffNoViews | main.go:372 | the result is empty exactly when every sample has zero views |
| AggregationFacts.TotalViewsAtLeastCount | main.go:386 | a bucket of samples with at least one view each totals at least its size |
| AggregationFacts.AggregatedViewsPositive | main.go:372-392 | with non-negative counts, no output sample has zero views |
| AggregationFacts.SingletonBucket | main.go:373 | with one sample with views per month, each month's bucket is that sample alone |
| AggregationFacts.AveragedSingleton | main.go:380-394 | averaging a single sample gives it back |
| AggregationFacts.AggregatingAggregatedIsPermutation | main.go:366-398 | aggregating samples that already hold one sample with views per month returns the same samples, as a multiset |
| Sorting.Insert | main.go:198-200 | inserting into a sorted list gives a sorted list with one more copy of the element |
| Sorting.SortByTime | main.go:198-200 | `sort.Slice` by `Before`: the result is ascending in time and a permutation of the input |
| Sorting.DistinctUnderPermutation | main.go:198-200 | rearranging a duplicate-free list keeps it duplicate-free |
| Sorting.UniqueMonthYearUnderPermutation | main.go:198-200 | sorting keeps a channel's samples one per (month, year) |
| Table.ColumnsAreRealMonths | main.go:203-215 | with startMonth at least 1, every column of either loop names a real month |
| Table.Header | main.go:209 | the header has one cell more than the columns, the first being "Channel name" |
| Table.AppendLabels | main.go:210-215 | a header loop appends the label of each month of its range, in order |
| Table.BuildHeader | main.go:209-215 | the header is "Channel name", then labels for startMonth..12 of startYear, then 1..endMonth of endYear |
| Table.LabelsAppend | main.go:209-215 | the labels of two runs of columns are the labels of each, one after the other |
| Table.Cells | main.go:264-274 | each column contributes at least one cell |
| Table.AppendColumn | main.go:264-274 | the inner loop appends the views of every sample of that (month, year), or one empty cell when there is none |
| Table.ViewCellsSnoc | main.go:268 | one more matching sample appends its views |
| Table.RowStep | main.go:263-289 | appending column k's cells to the row up to column k gives the row up to column k + 1 |
| Table.RowCellsAppend | main.go:263-289 | the cells of two runs of columns are the cells of each, one after the other |
| Table.AppendMonths | main.go:263-276 | a month loop of `createListing` appends the cells of each month of its range, in order |
| Table.CreateListing | main.go:258-291 | the row is the title, then the cells of every header column in order |
| Table.ColumnsCount | main.go:209-215 | there are max(0, 13 - startMonth) + max(0, endMonth) columns; with startMonth 13 only the end year's |
| Table.ColumnsIncreasing | main.go:209-215 | over a window spanning two years, the columns strictly increase |
| Table.SingleYearWindowRepeatsMonths | main.go:203-215 | when both years coincide, every month from startMonth to endMonth gets a column from each loop |
| Table.EarliestMonthHasNoColumn | main.go:204-215 | over two years, the earliest month has no column, as startMonth is one past it |
| Table.MonthNameInjective | main.go:211 | month names have no '-' and differ between months |
| Table.SplitAtFirstDash | main.go:211 | a '-'-free name and the rest can be read back off "name-rest" |
| Table.FirstDashAt | main.go:211 | in "name-rest" with a '-'-free name, the first '-' follows the name |
| Table.LabelInjective | main.go:211-214 | different columns get different labels |
| Table.LabelHasDash | main.go:209-211 | every label has a '-' and "Channel name" has none |
| Table.HeaderAt | main.go:209-215 | header cell k is the label of column k |
| Table.HeaderCellPair | main.go:209-215 | two header cells of different columns differ, and no label equals the first cell |
| Table.HeaderCellsDistinct | main.go:209-215 | header cells of increasing columns are pairwise different |
| Table.HeaderDistinct | main.go:209-215 | over a window spanning two years, no two header cells coincide |
| Table.MatchingIsFilter | main.go:265-270 | the matching samples of a column are exactly the input samples of that (month, year) |
| Table.MatchingEmptyIffNoMatch | main.go:265-274 | no sample matches exactly when no input sample falls in the column |
| Table.CellsEmptyIffNoMatch | main.go:272-274 | a column is one empty cell exactly when no sample falls in it |
| Table.AtMostOneMatch | main.go:265-270 | with one sample per (month, year), at most one sample matches a column |
| Table.CellOfUniqueSamples | main.go:263-274 | with one sample per (month, year), a column is one cell: that sample's views, or empty |
| Table.RowCellsAligned | main.go:263-289 | when each column gives one cell, cell k of the row belongs to column k |
| Table.RowMatchesHeader | main.go:258-291 | a channel with one sample per (month, year) gets a row as long as the header: title first, then under each label that month's views, or "" exactly when there is no sample |
| Table.RowOfSingleCells | main.go:258-291 | the same row layout, from the meaning of each single cell |
| Table.RowCellAt | main.go:258-291 | the cell under column k is that column's single cell |
| Report.OccurrencesZeroIff | main.go:177-178 | an identifier occurs in the team list zero times exactly when it is not in it |
| Report.OccurrencesOfDistinct | main.go:177-178 | in a duplicate-free team list an identifier occurs at most once |
| Report.CopiesCount | main.go:177-182 | the inner loop's copies hold the channel as often as asked, and nothing else |
| Report.KnownMultiplicity | main.go:174-183 | a channel appears in the known part once per team entry naming it, per input occurrence |
| Report.OthersMultiplicity | main.go:184-187 | a channel outside the team appears in the other part as often as in the input, and one in the team not at all |
| Report.ChannelCountInParts | main.go:174-187 | with a duplicate-free team, each channel's count in the two parts adds up to its input count |
| Report.ClassificationPartitions | main.go:174-187 | with a duplicate-free team, the two parts rearrange the input; the known part holds only team channels, the other part none |
| Report.ClassificationKeepsOrder | main.go:174-187 | both parts keep input order: the parts of a concatenation are the concatenations of the parts |
| Report.ClassifyInto | main.go:175-183 | the team loop appends the channel once per matching entry, and `found` is set exactly when its id is in the team |
| Report.SortChannel | main.go:198-200 | sorting keeps a channel's id and title and makes its samples a time-ordered permutation |
| Report.SortedChannels | main.go:174-200 | every channel is replaced, position by position, by its sorted version |
| Report.EarliestIsMinimum | main.go:171-192 | the start date is no later than now or any sample, and is now or some sample's time |
| Report.LatestIsMaximum | main.go:172-195 | the end date is no earlier than the epoch or any sample, and is the epoch or some sample's time |
| Report.WindowOfConcatenation | main.go:174-196 | scanning channel after channel gives the window of all their samples |
| Report.WindowIsSampleRange | main.go:171-196 | with samples strictly between the epoch and now, the window runs from the earliest sample's time to the latest one's |
| Report.WidenWindow | main.go:189-196 | the sample loop leaves the running minimum and maximum of the times |
| Report.PrefixStep | main.go:174-200 | one more channel adds its sorted version and its samples |
| Report.PrepareReport | main.go:169-201 | the loop leaves the known and other parts of the sorted channels and the window over all samples |
| Report.Rows | main.go:220-228 | one row per channel |
| Report.RowsAt | main.go:220-228 | row i is `createListing` of channel i |
| Report.GridRows | main.go:216-228 | the grid is the header, then the known rows, then the other rows, at those positions |
| Report.GridTitles | main.go:209-228 | row 0 starts with "Channel name"; rows 1..K hold the known channels' titles (ids in the team), the following rows the others' (ids not in the team) |
| Report.AppendRows | main.go:220-228 | a row loop appends `createListing` of each channel, in order |
| Report.BuildReport | main.go:169-228 | `main` builds the header and rows of the report grid |
| Report.KnownFromInput | main.go:174-187 | every known channel comes from the input with its id in the team, every other one with its id outside it |
| Report.GridLayout | main.go:169-228 | the report is the grid, over the window's max(0, 12 - m) + endMonth columns, of the known part and then the other part of the sorted channels, the known ids in the team and the others' not |
| Report.PartsInTeam | main.go:174-187 | each known channel's id is in the team and no other channel's is |
| Report.ReportHeaderLength | main.go:203-215 | the window's columns are real months, 12 - m + endMonth of them for earliest month m, and the header one more |
| Report.GridRectangular | main.go:216-228 | when every channel has one sample per (month, year), every grid row is as long as the header |
| Report.SortedChannelsKeepUniqueMonths | main.go:198-200 | a sorted channel keeps one sample per (month, year) |
| Report.GridIsRectangular | main.go:169-228 | when every channel has one sample per (month, year), every row of the report is as long as its header |
| Report.EarliestSampleMonthHasNoColumn | main.go:171-215 | over a window spanning two years, some sample (the earliest) has no column in the report |
| Pipeline.AggregateAll | main.go:366-399 | every channel's samples are replaced by an aggregation of them, keeping id and title |
| Pipeline.DownloadStats | main.go:317-399 | the pool is the team plus the batches of the attempts consumed, and every earlier pool was below 110; on success the pool holds at least 110 ids including the team, the keys list it once each, and the result is the fetch of their chunks with each channel aggregated; on failure either every attempt was consumed with the pool still below 110, or the pool was complete and the fetch of its chunks failed |
| Pipeline.DownloadedReportIsRectangular | main.go:366-399 | the report built from downloaded channels is a rectangle |
| TeamFacts.TeamSlotOf | main.go:294-302 | entry i of the team list is told apart from the others by its third and fourth characters |
| TeamFacts.ScienceTeamDistinct | main.go:294-302 | no identifier is listed twice in the team list |
| TeamFacts.ScienceTeamClassification | main.go:174-187 | against the team list, every channel lands in exactly one part, once |
| Scenarios.ScenarioLabels | main.go:211-214 | December 2023, January 2024 and February 2024 are labelled "December-2023", "January-2024", "February-2024" |
| Scenarios.TwoYearWindowHeader | main.go:203-215 | samples from November 2023 to February 2024 give the header "Channel name", "December-2023", "January-2024", "February-2024" |
| Scenarios.SingleYearWindowColumns | main.go:203-215 | samples from March to July 2024 give exactly the 16 columns April..December 2024 then January..July 2024 |

## Left out

- HTTP requests in `GetChannels` and `DoRequest` (main.go:420-449, 461-485) are network I/O. They become the attempt sequence and the fetch function.
- The regular-expression match itself (main.go:446-448) is a library call. `regexToChannel` is modelled on already-split submatches.
- JSON encoding and decoding, and reading and writing `stats.json` and `tags.json` (main.go:73-87, 100-165, 401-413), are file I/O with a foreign library. So is the choice between the cache and a fresh download.
- The YouTube tags enrichment (main.go:97-166) is a third-party API client that only copies fields.
- `csvExport` and the CSV writer's quoting (main.go:237-255) are file I/O. The model stops at the grid.
- Logging and `time.Sleep` have no effect on the results. `time.Now()` is a parameter of the report.
- Discovery.Discover: the program retries forever. The model consumes a finite list of attempts and reports when they ran out before the pool was complete.
- The `len(cl) < 1` panic (main.go:337-339) cannot happen after discovery, and `Pipeline.DownloadStats` proves this. The panic on a failed statistics request becomes a `None` result.
- Pipeline.DownloadStats: ids are not checked against the returned channels. A channel the service omits is simply absent, as in `main.go`.
- Sorting.SortByTime: the sort algorithm, and the order of samples recorded at the same instant, are not modelled. `sort.Slice` is not stable, and the model fixes one admissible order.
- `Channel` is a pointer type in Go. Appending a channel and then sorting its samples is seen through both parts. The model is on values: the sorted channel is what gets appended, so aliasing is not captured.
- Go ints are 64-bit. The model's integers are unbounded, so overflow of the view sums is not modelled.
- A `time.Time` is abstracted to its year, its month and a monotone position within the month. Time zones and calendar arithmetic are not modelled.
- Nil `Stats` pointers in the service's response are not modelled.
- The "Channels is nil!" panic (main.go:88-90) is not modelled: channels are a sequence, so a nil slice (every statistics request returned an empty list, or `stats.json` holds `null`) is modelled as the empty sequence, for which the model builds a header-only report where the program panics.
- `Month.String()` for numbers outside 1..12 is not modelled. The header's columns always name real months, and this is proved.
