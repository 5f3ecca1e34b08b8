# spring-batch-practice, modelled in Dafny

This project models the logic of the `spring-batch-practice` repository that
does not come from the batch framework itself. It has five parts:

- **Partner aggregation.** The SQL of `PartnerAggregationService` becomes pure
  functions from the `player_userlog` rows to the `partner_aggregation` rows:
  - GROUP BY partner (or partner and period);
  - `COUNT(DISTINCT member_id)`;
  - the per-action counters in their three SQL spellings (`FILTER`, `COUNT(CASE)`, `SUM(CASE)`);
  - `COALESCE(SUM(col), 0)` over nullable columns;
  - the half-open time windows.
  The service methods and the native queries of `PartnerAggregationRepository`
  are functions over the aggregation table, held as a sequence of rows.
- **The test-data generator.** The ceiling-division batch partition of
  `generateJpaTestData`/`generateJdbcTestData`, and the field rules of
  `createRandomLog`. The random numbers become a `Draw` record whose fields lie
  within the `nextInt` bounds.
- **The paged reader.** `PlayerUserLogItemReader` is a state machine over
  `(currentPage, pageIterator, isInitialized)`. `findAll(PageRequest.of(k, 1000))`
  is a slice of the table, or a failure.
- **The job fixtures.** The list readers, the counter-driven failing processors,
  the fail-once upserting writer of the restart test, and the static-counter
  tasklet. Each job's mutable state is an explicit record.
- **A minimal chunk driver** (`ChunkDriver`) that runs the fixtures. It cuts the
  input into chunks of `n`, processes and writes chunk after chunk, and stops at
  the first exception, optionally retrying a chunk a fixed number of times. It
  is scaffolding for stating the fixtures' outcomes, not the batch framework's
  algorithm.

Modules, one per file:
- `Common`: Option, filter, count, sum, distinct.
- `Digits`: decimal and zero-padded rendering, with their parses.
- `UserLog`: the log row.
- `Aggregation`: the queries.
- `AggregationRepository`.
- `AggregationService`.
- `TestDataGenerator`.
- `PagedReader`.
- `ChunkDriver`.
- `Users`.
- `UserJob`.
- `ExceptionJob`.
- `ExceptionRetryJob`.
- `ChunkRetryJob`.
- `PartnerAggregationJob`.

## Model

| member | source | states |
|---|---|---|
| Aggregation.CountFormsAgree | src/main/java/com/example/batch/service/PartnerAggregationService.java:108-123 | `COUNT(CASE WHEN action = 'a' THEN 1 END)`, `SUM(CASE ... THEN 1 ELSE 0 END)` and `COUNT(*) FILTER (WHERE action = 'a')` give the same number for every group and action |
| Aggregation.ActionCounterCounts | src/main/java/com/example/batch/service/PartnerAggregationService.java:40-55 | whatever the spelling, an action counter is the number of the group's rows whose action is that name (a NULL action matches none) |
| Aggregation.DistinctMembersAtMostRows | src/main/java/com/example/batch/service/PartnerAggregationService.java:39 | the number of distinct non-NULL member ids of a group is at most its row count |
| Aggregation.UvAtMostRows | src/main/java/com/example/batch/service/PartnerAggregationService.java:39 | `total_uv` never exceeds the number of rows in the group |
| Aggregation.SqlSumNullAsZero | src/main/java/com/example/batch/service/PartnerAggregationService.java:41 | `COALESCE(SUM(col), 0)` equals the sum with every NULL read as 0, and is non-negative when every non-NULL value is |
| Aggregation.CountersAddUp | src/main/java/com/example/batch/service/PartnerAggregationService.java:40-55 | with the FILTER and COUNT(CASE) spellings the twelve action counters sum to the number of rows whose action is one of the twelve names, hence to at most the row count |
| Aggregation.ActionCountsAddUp | src/main/java/com/example/batch/service/PartnerAggregationService.java:42-55 | counting distinct action names one by one and adding up equals counting the rows whose action is any of them |
| Aggregation.PeriodPvIsRowCount | src/main/java/com/example/batch/service/PartnerAggregationService.java:282-283 | in the period query PV is `COUNT(*)`, the group's size, so UV never exceeds PV |
| Aggregation.UvMayExceedPageViews | src/main/java/com/example/batch/service/PartnerAggregationService.java:39-40 | in the FILTER and COUNT(CASE) queries PV counts only `pageView` rows: a group whose single row is a member's chat has UV 1 and PV 0 |
| Aggregation.SumsNonNegative | src/main/java/com/example/batch/service/PartnerAggregationService.java:41-47 | the four COALESCE'd sums of a group are non-negative when their columns hold no negative value |
| Aggregation.GroupKeysMember | src/main/java/com/example/batch/service/PartnerAggregationService.java:58 | a key is among the GROUP BY keys iff some row carries it; the keys have no duplicates |
| Aggregation.GroupByShape | src/main/java/com/example/batch/service/PartnerAggregationService.java:56-58 | GROUP BY yields one result per distinct key, and each result summarizes exactly the rows carrying its key |
| Aggregation.GroupByKeysDistinct | src/main/java/com/example/batch/service/PartnerAggregationService.java:58 | no two GROUP BY results share a key |
| Aggregation.GroupByKeysFromRows | src/main/java/com/example/batch/service/PartnerAggregationService.java:58 | every result's key is the key of some input row |
| Aggregation.GroupByCoversRows | src/main/java/com/example/batch/service/PartnerAggregationService.java:58 | every input row's key has a result |
| Aggregation.PartnerQueryRows | src/main/java/com/example/batch/service/PartnerAggregationService.java:172-196 | each row of a partner-grouped query summarizes exactly the rows of its partner_id that pass the WHERE clause, and carries the query's date |
| Aggregation.PartnerQueryIgnores | src/main/java/com/example/batch/service/PartnerAggregationService.java:192-195 | a log row that fails the WHERE clause does not change the query's result |
| Aggregation.QueryByPartnerRows | src/main/java/com/example/batch/service/PartnerAggregationService.java:36-58 | each row of `aggregateByPartnerId` is for a non-NULL partner, dated the argument, and summarizes all of that partner's log rows |
| Aggregation.QueryByPartnerOnePerPartner | src/main/java/com/example/batch/service/PartnerAggregationService.java:57-58 | exactly one row per distinct non-NULL partner_id of the log: no partner twice, none without a log row, none missing |
| Aggregation.QueryByPartnerDated | src/main/java/com/example/batch/service/PartnerAggregationService.java:83 | every row of `aggregateByPartnerId` carries the `aggregationDate` argument |
| Aggregation.QueryByPartnerIgnoresNullPartner | src/main/java/com/example/batch/service/PartnerAggregationService.java:57 | a log row with a NULL partner_id contributes to nothing |
| Aggregation.QueryByPartnerInRangeShape | src/main/java/com/example/batch/service/PartnerAggregationService.java:125-128 | the partner/range query returns at most one row, for the requested partner, dated `startDate` |
| Aggregation.QueryByPartnerInRangeRow | src/main/java/com/example/batch/service/PartnerAggregationService.java:104-129 | it returns a row iff the partner has a log row with startDate ≤ `__time` < endDate, and that row counts exactly those rows |
| Aggregation.QueryByPartnerInRangeEmptyWindow | src/main/java/com/example/batch/service/PartnerAggregationService.java:126-127 | when endDate ≤ startDate the query returns nothing |
| Aggregation.QueryByRangeRows | src/main/java/com/example/batch/service/PartnerAggregationService.java:172-196 | `aggregateByDateRange` returns one row per partner_id value (NULL included) among the log rows of the half-open window; each row summarizes exactly those rows and is dated `startDate` |
| Aggregation.QueryByRangeDated | src/main/java/com/example/batch/service/PartnerAggregationService.java:221 | every row of `aggregateByDateRange` is dated `startDate` |
| Aggregation.QueryByRangeIgnoresOutsideRows | src/main/java/com/example/batch/service/PartnerAggregationService.java:193-194 | a log row outside [startDate, endDate) does not change the result |
| Aggregation.GroupByFormat | src/main/java/com/example/batch/service/PartnerAggregationService.java:263-276 | each aggregation type maps to a pattern that begins with `%Y-%m-%d`; only DAILY maps to that date pattern alone |
| Aggregation.QueryByPeriodRows | src/main/java/com/example/batch/service/PartnerAggregationService.java:278-303 | each period row is for the requested partner, typed by the aggregation type's name, keyed by its period, and summarizes exactly the partner's rows created in the window with that key |
| Aggregation.QueryByPeriodUvAtMostPv | src/main/java/com/example/batch/service/PartnerAggregationService.java:282-283 | in every period row PV is the positive number of rows of its period, and UV ≤ PV |
| Aggregation.QueryByPeriodPartner | src/main/java/com/example/batch/service/PartnerAggregationService.java:300 | every period row is for the requested partner and has a key |
| Aggregation.QueryByPeriodKeysDistinct | src/main/java/com/example/batch/service/PartnerAggregationService.java:301 | no period key has two rows |
| Aggregation.QueryByPeriodCoversRows | src/main/java/com/example/batch/service/PartnerAggregationService.java:300-301 | every partner row created in the window has its period's row |
| AggregationRepository.DeleteByAggregationDate | src/main/java/com/example/batch/repository/PartnerAggregationRepository.java:16-18 | removes exactly the rows dated `d`, every copy of them, and keeps every other row with its multiplicity |
| AggregationRepository.FindByAggregationDate | src/main/java/com/example/batch/repository/PartnerAggregationRepository.java:20-21 | returns exactly the rows dated `d`, with their multiplicity |
| AggregationRepository.CountAllData | src/main/java/com/example/batch/repository/PartnerAggregationRepository.java:23-24 | the number of rows in the table |
| AggregationRepository.DeleteByPartnerIdAndAggregationDateBetween | src/main/java/com/example/batch/repository/PartnerAggregationRepository.java:26-28 | removes exactly the rows of that partner dated in [start, end); a NULL partner_id never matches |
| AggregationRepository.FindByAggregationTypeAndAggregationKey | src/main/java/com/example/batch/repository/PartnerAggregationRepository.java:30-31 | returns exactly the rows with that type and key |
| AggregationRepository.DeleteByPartnerIdAndAggregationTypeAndAggregationKey | src/main/java/com/example/batch/repository/PartnerAggregationRepository.java:33-35 | removes exactly the rows matching partner, type and key, and nothing else |
| AggregationRepository.FindAfterDelete | src/main/java/com/example/batch/repository/PartnerAggregationRepository.java:16-21 | after deleting date `d`, finding date `d` returns nothing |
| AggregationRepository.DeleteFindPartition | src/main/java/com/example/batch/repository/PartnerAggregationRepository.java:16-24 | the rows the date delete keeps plus the rows the date find returns account for the whole count |
| AggregationRepository.DeleteByDateIdempotent | src/main/java/com/example/batch/repository/PartnerAggregationRepository.java:16-18 | deleting a date twice deletes nothing more |
| AggregationRepository.DeleteByDateAfterSave | src/main/java/com/example/batch/service/PartnerAggregationService.java:32 | deleting date `d` undoes a save of rows dated `d` and leaves the rest as it was |
| AggregationRepository.DeleteByPartnerDatesIdempotent | src/main/java/com/example/batch/repository/PartnerAggregationRepository.java:26-28 | the partner/window delete is idempotent |
| AggregationRepository.DeleteByPartnerDatesAfterSave | src/main/java/com/example/batch/service/PartnerAggregationService.java:101 | the partner/window delete undoes a save of that partner's rows dated inside the window |
| AggregationRepository.FindByDateAfterSave | src/main/java/com/example/batch/repository/PartnerAggregationRepository.java:20-21 | after saving rows dated `d`, finding `d` returns the old rows of `d` followed by the saved ones |
| AggregationService.AggregateByPartnerId | src/main/java/com/example/batch/service/PartnerAggregationService.java:27-94 | afterwards the rows found for the date are exactly the returned rows, and the rows of every other date are as before |
| AggregationService.AggregateByPartnerIdIdempotent | src/main/java/com/example/batch/service/PartnerAggregationService.java:32 | a second run over unchanged logs returns the same rows and leaves the same table as the first |
| AggregationService.AggregateByPartnerIdAndDateRange | src/main/java/com/example/batch/service/PartnerAggregationService.java:97-165 | returns at most one row, for the partner, dated `startDate`; the table is the old one minus the partner's window, plus that row |
| AggregationService.AggregateByPartnerIdAndDateRangeIdempotent | src/main/java/com/example/batch/service/PartnerAggregationService.java:101 | a second run over unchanged logs returns the same rows and leaves the same table, for every window, empty ones included |
| AggregationService.AggregateByDateRange | src/main/java/com/example/batch/service/PartnerAggregationService.java:168-228 | leaves the aggregation table untouched and returns rows dated `startDate` |
| AggregationService.SaveBatchData | src/main/java/com/example/batch/service/PartnerAggregationService.java:230-241 | saves every row in order after the existing ones, and the count of non-null save results is the number of rows given |
| AggregationService.AggregateThenRead | src/main/java/com/example/batch/service/PartnerAggregationService.java:244-250 | after `aggregateByPartnerId`, `getAggregationsByDate` returns the returned rows, and the total count changed by the returned rows minus the rows the date held before |
| AggregationService.AggregateByPartnerAndPeriod | src/main/java/com/example/batch/service/PartnerAggregationService.java:257-336 | nothing is deleted: the old table is kept as a prefix; the appended rows are the partner's, typed by the aggregation type's name, dated `startDate`, one per period key, and every partner row created in the window has its period's row among them |
| AggregationService.PeriodRerunAppends | src/main/java/com/example/batch/service/PartnerAggregationService.java:334 | a second run over unchanged logs appends the same rows again, so the table changes iff the query produced a row |
| UserLog.ActionsAreDistinct | src/main/java/com/example/batch/service/TestDataGeneratorService.java:28-30 | the twelve action names are distinct |
| Digits.ParseZeroPadded | src/main/java/com/example/batch/service/TestDataGeneratorService.java:142-143 | a number below 10^w rendered with `%0wd` parses back to itself |
| Digits.ZeroPaddedParse | src/main/java/com/example/batch/service/TestDataGeneratorService.java:142-143 | every digit string of width w is the `%0wd` rendering of the number it denotes |
| Digits.ParseDecimal | src/main/java/com/example/batch/config/BatchConfig.java:62 | the decimal rendering `"" + i` used in the mock user names is all digits and parses back to `i` |
| Digits.DecimalInjective | src/main/java/com/example/batch/config/BatchConfig.java:62 | distinct numbers render to distinct decimal strings |
| TestDataGenerator.TotalBatches | src/main/java/com/example/batch/service/TestDataGeneratorService.java:40-41 | the batch count is the ceiling of totalCount / 10000: the least b with 10000·b ≥ totalCount |
| TestDataGenerator.BatchSizeBounds | src/main/java/com/example/batch/service/TestDataGeneratorService.java:46-49 | every batch size lies in [1, 10000], and only the last batch can be short |
| TestDataGenerator.BatchPrefixSum | src/main/java/com/example/batch/service/TestDataGeneratorService.java:46-56 | after k batches, 10000·k records are saved, or all of them once the last batch is done |
| TestDataGenerator.BatchSizesSum | src/main/java/com/example/batch/service/TestDataGeneratorService.java:46-56 | the batch sizes sum to totalCount (0 for a non-positive total) |
| TestDataGenerator.CreateRandomLog | src/main/java/com/example/batch/service/TestDataGeneratorService.java:135-151 | partner, state code and action come from their vocabularies, the time lies within 30 days of the start, the ids have their fixed shapes, the type code is "live"; playtime in [0, 3600) and like count in [0, 10) are present iff the action is `pageView`; amount in [1000, 101000) and quantity in [1, 5] are present iff it is `productOrder` |
| TestDataGenerator.EveryMemberIdReachable | src/main/java/com/example/batch/service/TestDataGeneratorService.java:143 | every "member_" + 8-digit id is produced by some draw |
| TestDataGenerator.EveryBroadcastIdReachable | src/main/java/com/example/batch/service/TestDataGeneratorService.java:142 | every "broadcast_" + 6-digit id is produced by some draw |
| TestDataGenerator.CreateBatch | src/main/java/com/example/batch/service/TestDataGeneratorService.java:51-54 | the inner loop builds `currentBatchSize` records, the k-th from the k-th draw after the offset |
| TestDataGenerator.SaveBatch | src/main/java/com/example/batch/service/TestDataGeneratorService.java:46-56 | one outer pass saves exactly the next batch, keeping the records in draw order; after the last batch the total is reached |
| TestDataGenerator.GenerateTestData | src/main/java/com/example/batch/service/TestDataGeneratorService.java:32-67 | the emptied table ends with exactly max(totalCount, 0) records, record i built from draw i and carrying its own creation stamp |
| PagedReader.FindAll | src/main/java/com/example/batch/reader/PlayerUserLogItemReader.java:61-62 | over one fixed order of an unchanged table, page k holds rows [1000k, 1000(k+1)), cut at its end; it is non-empty iff 1000k < n, and a short page reaches the end |
| PagedReader.Reset | src/main/java/com/example/batch/reader/PlayerUserLogItemReader.java:78-82 | back to the state of a new reader |
| PagedReader.Read | src/main/java/com/example/batch/reader/PlayerUserLogItemReader.java:31-49 | a read initialises the reader; it returns a row iff the iterator or the next page has one; null and failure leave the state as initialised; the page advances by at most one, and only when a row is returned |
| PagedReader.ReadNextRow | src/main/java/com/example/batch/reader/PlayerUserLogItemReader.java:36-45 | over a fixed table, after p < n rows the next read returns row p |
| PagedReader.ReadPastEnd | src/main/java/com/example/batch/reader/PlayerUserLogItemReader.java:41-48 | after all n rows a read returns null and keeps its state |
| PagedReader.ReadInitializes | src/main/java/com/example/batch/reader/PlayerUserLogItemReader.java:32-34 | a reader that is not yet initialised reads as an initialised one at page 0 |
| PagedReader.ReadOnce | src/main/java/com/example/batch/reader/PlayerUserLogItemReader.java:31-49 | one read over a fixed table returns the next row if there is one, else null |
| PagedReader.ReadsFrom | src/main/java/com/example/batch/reader/PlayerUserLogItemReader.java:36-71 | after p rows, k further reads return the following rows in table order, then null |
| PagedReader.ReadsFresh | src/main/java/com/example/batch/reader/PlayerUserLogItemReader.java:32-34 | a new reader returns what an initialised page-0 reader returns, call after call |
| PagedReader.ReadsFromFresh | src/main/java/com/example/batch/reader/PlayerUserLogItemReader.java:31-71 | a new reader returns the table's rows in order, then null |
| PagedReader.DrainTable | src/main/java/com/example/batch/reader/PlayerUserLogItemReader.java:31-71 | over a repository that pages one fixed order of an unchanged table of n rows, the first n reads return each row once in that order, and every later read returns null |
| PagedReader.ResetReplays | src/main/java/com/example/batch/reader/PlayerUserLogItemReader.java:78-82 | after `reset` the reads replay the table from its first row, whatever was read before |
| PagedReader.FailureRetriesSamePage | src/main/java/com/example/batch/reader/PlayerUserLogItemReader.java:72-75 | a failing page load keeps `currentPage`, so once the repository recovers the next read returns what it would have returned without the failure |
| ChunkDriver.ListReaderYields | src/main/java/com/example/batch/config/BatchExceptionRetryTest.java:54-62 | an index reader at position p returns the list from p on, in order, then null on every later call |
| Users.BuildMockUsers | src/main/java/com/example/batch/config/BatchConfig.java:59-65 | exactly 100 users; the i-th is "User"+i with "user"+i+"@example.com" |
| Users.MockUserNameParses | src/main/java/com/example/batch/config/BatchConfig.java:62 | the user number reads back from the name, and the e-mail is determined by the name |
| Users.MockUsersDistinct | src/main/java/com/example/batch/config/BatchConfig.java:61-62 | no two mock users share a name |
| Users.ToEntity | src/main/java/com/example/batch/config/BatchConfig.java:68-70 | the entity has no id and keeps the DTO's name and e-mail, so the DTO can be recovered |
| UserJob.UserChunks | src/main/java/com/example/batch/config/BatchConfig.java:51 | chunk size 10 over the 100 users gives exactly 10 full chunks |
| UserJob.ProcessChunkMaps | src/main/java/com/example/batch/config/BatchConfig.java:68-70 | the processor never throws or filters: a chunk maps item by item to entities |
| UserJob.UserStepCompletes | src/main/java/com/example/batch/config/BatchConfig.java:45-56 | the step completes over any chunks, appending every item's entity in order |
| UserJob.UserJobPersistsAll | src/main/java/com/example/batch/config/BatchConfig.java:50-55 | the user step completes with its 10 chunks and writes the 100 entities in order |
| ExceptionJob.FailingCallsWindow | src/main/java/com/example/batch/config/ExceptionJobConfig.java:64-72 | among the first c calls, the failing ones number 0 up to 50 calls, c − 50 up to 60, and exactly 10 thereafter |
| ExceptionJob.ProcessChunkBeforeWindow | src/main/java/com/example/batch/config/ExceptionJobConfig.java:64-73 | while the count stays within 50, a chunk maps to its entities and the count grows by its size |
| ExceptionJob.StepBeforeWindow | src/main/java/com/example/batch/config/ExceptionJobConfig.java:44-49 | chunks totalling at most 50 calls from the start all commit |
| ExceptionJob.StepAtWindow | src/main/java/com/example/batch/config/ExceptionJobConfig.java:70-72 | at count 50 the next call throws and the step fails with nothing more committed |
| ExceptionJob.MockUserChunks | src/main/java/com/example/batch/config/ExceptionJobConfig.java:45 | chunk size 10 cuts the 100 users into the first 50 (five chunks) and a sixth chunk of User51 to User60 |
| ExceptionJob.FailingItemsAreSixthChunk | src/main/java/com/example/batch/config/ExceptionJobConfig.java:45-72 | with one call per item in read order, call i fails iff its user is in the sixth chunk |
| ExceptionJob.FirstRun | src/main/java/com/example/batch/config/ExceptionJobConfig.java:44-73 | from a count of 0 the step fails after five committed chunks (User1 to User50), with the count at 51 |
| ExceptionRetryJob.ReaderYieldsOneToTen | src/main/java/com/example/batch/config/BatchExceptionRetryTest.java:51-64 | the reader returns 1 to 10 in order, then null on every later call |
| ExceptionRetryJob.AttemptsOnFive | src/main/java/com/example/batch/config/BatchExceptionRetryTest.java:72-77 | k attempts at a chunk starting with 5 all fail, and `retryCount` grows by exactly k |
| ExceptionRetryJob.ProcessWithoutFive | src/main/java/com/example/batch/config/BatchExceptionRetryTest.java:78-79 | a chunk without 5 passes through unchanged |
| ExceptionRetryJob.ChunksOfFour | src/main/java/com/example/batch/config/BatchExceptionRetryTest.java:41 | chunk size 4 over 1..10 gives [1..4], [5..8], [9, 10] |
| ExceptionRetryJob.StepNeverCompletes | src/main/java/com/example/batch/config/BatchExceptionRetryTest.java:38-49 | for any positive number of attempts the step fails after committing one chunk, with `retryCount` equal to the number of attempts |
| ChunkRetryJob.MergeContents | src/test/java/com/example/batch/ChunkRetryTest.java:139-141 | after the upserts the ids are the old ones plus the merged ones; a merged id holds "val"+id, every other row is untouched |
| ChunkRetryJob.MergeIdempotent | src/test/java/com/example/batch/ChunkRetryTest.java:137-141 | upserting the same items again leaves the table unchanged |
| ChunkRetryJob.MergeAppend | src/test/java/com/example/batch/ChunkRetryTest.java:139-141 | upserting a then b is upserting a + b |
| ChunkRetryJob.RowCount | src/test/java/com/example/batch/ChunkRetryTest.java:51 | a table keyed by its primary key whose ids are some distinct items has one row per item |
| ChunkRetryJob.WriteFailsOnce | src/test/java/com/example/batch/ChunkRetryTest.java:127-142 | the writer fails at most once until `failedData` is cleared: a failing chunk holds 4, is recorded and leaves the table alone, and the next write of any chunk succeeds, upserting it into that table |
| ChunkRetryJob.ChunksOfThree | src/test/java/com/example/batch/ChunkRetryTest.java:118-124 | chunk size 3 over 1..10 gives [1,2,3], [4,5,6], [7,8,9], [10] |
| ChunkRetryJob.FirstLaunch | src/test/java/com/example/batch/ChunkRetryTest.java:72-82 | the first launch fails with one chunk committed, exactly three rows, and `failedData` = [4, 5, 6] |
| ChunkRetryJob.StepAfterFailure | src/test/java/com/example/batch/ChunkRetryTest.java:131-141 | once a failure is recorded every chunk is written, so any step completes having upserted its chunks in order |
| ChunkRetryJob.SecondLaunch | src/test/java/com/example/batch/ChunkRetryTest.java:86-95 | the relaunch completes with exactly the ids 1 to 10, whether it resumes at the failed chunk or replays from the first |
| ChunkRetryJob.MergeIntoEmpty | src/test/java/com/example/batch/ChunkRetryTest.java:139-141 | upserting distinct ids into an empty table gives one row per id |
| ChunkRetryJob.ItemsContents | src/test/java/com/example/batch/ChunkRetryTest.java:94-95 | upserting 1..10 into the empty table gives exactly the ids 1 to 10, ten rows |
| PartnerAggregationJob.Tasklet | src/main/java/com/example/batch/config/PartnerAggregationBatchConfig.java:117-125 | each invocation increments `count`; it throws iff the count was 0, saving nothing; otherwise it saves the window's rows after the existing ones, each dated `startDate` |
| PartnerAggregationJob.LaunchesAfterFirst | src/main/java/com/example/batch/config/PartnerAggregationBatchConfig.java:118-124 | once the count is positive, k launches raise it by k and append k copies of the window's rows, since nothing deletes them first |
| PartnerAggregationJob.FirstLaunchThrows | src/main/java/com/example/batch/config/PartnerAggregationBatchConfig.java:118-119 | from a count of 0 the first launch throws and the second finishes; after k launches the count is k and k − 1 copies are saved |
| PartnerAggregationJob.ProcessChunkRows | src/main/java/com/example/batch/config/PartnerAggregationBatchConfig.java:82-86 | a non-empty chunk fails at its first row while `count` is 2, and passes through unchanged otherwise |
| PartnerAggregationJob.LoggingTransparent | src/main/java/com/example/batch/config/PartnerAggregationBatchConfig.java:136-140 | the logging wrapper returns exactly what its delegate returns, nulls included, call after call |
| PartnerAggregationJob.ListItemReaderYields | src/main/java/com/example/batch/config/PartnerAggregationBatchConfig.java:73-76 | the list item reader returns the rows of `aggregateByDateRange` in order, then null |

## Left out

- PagedReader.FindAll: `findAll(PageRequest.of(page, 1000))` carries no `Sort`, and the log repository declares no ordering, so SQL does not promise that successive page queries share one row order. The model assumes two things: the pages slice one fixed sequence, and the table does not change between page loads. `PagedReader.DrainTable`, `PagedReader.ReadsFrom` and `PagedReader.ReadsFromFresh` ("each row once, in order") hold only under those assumptions. An arbitrary `Loader` (as in `PagedReader.Read` and `PagedReader.FailureRetriesSamePage`) covers the general case.
- AggregationService.SaveBatchData: `save` is taken to return the saved entity and never null, which is Spring Data's contract for `CrudRepository.save`. The `savedAggregation != null` test therefore always passes, and `savedCount` equals the number of rows. A repository that returned null is not modelled.
- Spring Batch itself: job repository, launcher, execution bookkeeping, transactions, skip and retry policies. Its code is not in the repository. `ChunkDriver` is a stand-in that processes and writes chunk after chunk and stops at the first exception. Retrying is modelled as re-attempting a whole chunk with the state the failed attempt left.
- Restart of a failed job instance is not modelled as a framework feature. For the restart test, both readings are proved: resuming at the failed chunk and replaying from the first item.
- JDBC and JPA plumbing are replaced by sequences: `jdbcTemplate` calls, the prepared-statement setter, entity annotations, the entity-manager wiring.
- `created_at` is never set by the generator. The JPA creation timestamp or the column default stamps each row on insertion. The model takes one stamp per record (`stamps[i]` for record i) as a clock input and promises nothing about the stamps, so rows may or may not share a creation time.
- Generated ids (IDENTITY columns) are not modelled. The aggregation table is a sequence of rows, so equalities of tables hold up to ids.
- The order of GROUP BY results is unspecified in SQL. The model uses first-appearance order and states its properties without relying on it.
- `DATE_FORMAT` rendering is a function parameter. It is applied to `created_at` and the pattern the aggregation type selects.
- `java.util.Random` is replaced by `Draw` records whose fields lie in the `nextInt` bounds, and `LocalDateTime.now()` by an integer number of seconds.
- Logging, timing, throughput and the floating-point durations in the performance tests are left out.
- Java `int`/`long` overflow is not modelled: `batch * batchSize`, the processors' counters and the static `Long count` are unbounded integers. For the counts in these fixtures it cannot occur.
- `Math.ceil((double) totalCount / batchSize)` is modelled as exact integer ceiling division. For every `int` total the double quotient is exact enough that the two agree.
- A `null` partnerId passed to the partner queries is not modelled: `pid` is a string. A NULL column value never equals a parameter.
- `PartnerAggregation` as shown has no `aggregationType`/`aggregationKey` fields, although the period query's builder sets them. The model's aggregation row carries both, as the repository queries imply.
- UserDto is not part of this model. Its name/email fields are taken from how the readers construct it.
- The batch framework's `ListItemReader` is modelled as the index reader `ChunkDriver.ListRead`. Items of the integer fixtures are natural numbers, which covers every item the fixtures use.
- The `chunkCount` counter of the restart test is only reset and read, never incremented, so it is not modelled.
- The test assertion UV ≤ PV for `aggregateByPartnerId` (src/test/java/com/example/batch/PartnerAggregationTest.java:154) does not follow from the query: PV there counts only `pageView` rows. `Aggregation.UvMayExceedPageViews` gives a group that violates it. UV ≤ PV is proved only for the period query.
- The partner-aggregation job test expects the first launch to complete (src/test/java/com/example/batch/config/PartnerAggregationBatchConfigTest.java:67). The tasklet throws on its first invocation (`PartnerAggregationJob.FirstLaunchThrows`), so this expectation is not carried over.
- The `partnerAggregationItemProcessor`, the `partnerAggregationListItemReader` and the JPA writer are declared but not wired into the tasklet step. They are modelled on their own.
- `PlayerUserLogBatchConfig`, `BatchController`, `BatchApplication` and the JDBC item reader are wiring only and are left out.
