# Job-offer aggregator: a Dafny model of the ingestion pipeline and the query engine

This project models the core of a NestJS service that gathers job offers from two external
providers into one `job_offers` table and serves them through a filtered, paginated query.

- **`JobOffersSchedulerService`** (`scheduler.dfy`): one tick of the scheduler.
  - Fetches both providers and transforms each record into a draft row.
    - First provider: the salary text is parsed with the regular expression `\$(\d+)k\s*-\s*\$(\d+)k`.
    - Second provider: the location and description are composed from the nested objects.
  - Stores each draft through `saveOffer`, the lookup-then-insert rule keyed by `externalId`.
  - Counts the records whose handling did not throw.
- **`ExternalApisService`** (`external_apis.dfy`): the shape checks applied to the providers' replies.
  - The first provider's `jobs` array.
  - The second provider's `status`/`jobsList` object, flattened into records with the map key injected as `jobId`.
- **`JobOffersService`** (`job_offers_service.dfy`, `store.dfy`, `query.dfy`):
  - a class over the stored rows, with `findByExternalId`, `create` and `createTestData`;
  - `findAll`: the four optional filters, ordering by `createdAt` descending, `skip`/`take` paging and the page count.
- **`FilterJobOffersDto`** (`filter_dto.dfy`): the optional fields, their validation and their defaults.
- **The `JobOffer` entity** (`entity.dfy`): its columns and the unique constraint on `externalId`.

Supporting modules:

- `wrappers.dfy`: `Option` and `Result`.
- `text.dfy`: digits, JavaScript's `\s` class, `join`, ASCII lower-casing and substring search.
- `salary.dfy`: the salary regular expression as a leftmost search over start positions.

Modelling choices:

- **The repository is a value.** A `Table` holds:
  - the rows in insertion order;
  - a counter that hands out ids, standing in for the generated UUID;
  - a clock for `createdAt`/`updatedAt`.

  `TableValid` holds:
  - unique `externalId`s;
  - ids and creation times strictly increasing in store order;
  - `updatedAt == createdAt` on every row.

  The class `JobOffers.JobOffersService` keeps the same three things as fields, and starts
  from whatever valid table the repository already holds. Its methods are proved against
  the table functions:
  - `Create` against `Store.Insert`;
  - `FindByExternalId` against `Entity.ExternalIds`;
  - `CreateTestData` against `Store.SaveAll`.

  `Scheduler.SaveOffer` is proved against `Store.Save`.
- **`undefined` and the empty string are the same value.** A missing or empty `jobId` or
  `externalId` is `""`, because the source tests both with JavaScript truthiness.
- **A missing nested object makes the transform fail.** Such an object (`details`, `company`,
  `skills`, `employer`, `requirements`, `technologies`, `location`, `compensation`) is
  `None`. Reading through it raises a `TypeError`. The adapter loop catches that error and
  does not count the record. The model's outcome for such a record is `Failed`.
- **A tick's result is split in two.** The transforms are pure functions of the fetched
  records, so a batch is modelled as its sequence of outcomes, plus the writes that
  `saveOffer` makes for the ready drafts.
- **Behaviour kept exactly as the code has it:**
  - `saveOffer` returns nothing. For an empty `externalId` it returns without throwing; it
    only logs an error.
  - Each adapter returns a single count of records handled without an exception. This
    count includes skipped and duplicate records. There are no separate
    created/skipped/error counters.
  - `findAll` orders only by `createdAt`. Over a valid table ties cannot occur, because
    creation times are strictly increasing in store order (`Query.StoredResultStrictlyNewestFirst`).

## Model

| member | source | states |
|---|---|---|
| Entity.NewRow | src/entities/job-offer.entity.ts:5-36 | a stored row carries exactly the draft's columns, the id it was given, and equal `createdAt` and `updatedAt` |
| Entity.ExternalIds | src/entities/job-offer.entity.ts:29-30 | an identity is in the set exactly when some row carries it |
| Entity.UniqueExternalIds | src/entities/job-offer.entity.ts:29-30 | defines the `unique: true` constraint: no two rows share an `externalId` |
| Entity.UniqueMeansOnce | src/entities/job-offer.entity.ts:29-30 | under the unique constraint, every present `externalId` is carried by exactly one row and an absent one by none |
| Entity.UniqueCardinality | src/entities/job-offer.entity.ts:29-30 | under the unique constraint, there are as many distinct identities as rows |
| FilterDto.PageOf | src/dto/filter-job-offers.dto.ts:30-35 | the page is the given one or 1, and it is at least 1 for a validated request |
| FilterDto.IsValid | src/dto/filter-job-offers.dto.ts:16-42 | defines a validated request: both salary bounds at least 0, page and limit at least 1 |
| FilterDto.LimitOf | src/dto/filter-job-offers.dto.ts:37-42 | the limit is the given one or 10, and it is at least 1 for a validated request |
| Text.NatToDecimal | src/modules/job-offers/job-offers-scheduler.service.ts:111 | the rendering of a number is a non-empty run of digits with no leading zero (a single digit below 10, a non-zero first digit from 1 on), as a template string prints it |
| Text.DecimalValue | src/modules/job-offers/job-offers-scheduler.service.ts:85 | defines `parseInt` of a run of decimal digits |
| Text.DecimalRoundTrip | src/modules/job-offers/job-offers-scheduler.service.ts:85 | reading the rendered digits back with `parseInt` returns the number |
| Text.IntToString | src/modules/job-offers/job-offers-scheduler.service.ts:111 | a non-negative number is printed as canonical digits (no leading zero) whose value is the number; a negative one as `-` followed by canonical digits whose value is its magnitude |
| Text.JoinAppend | src/modules/job-offers/job-offers-scheduler.service.ts:91 | joining one more element appends the separator and then the element |
| Text.Join | src/modules/job-offers/job-offers-scheduler.service.ts:91 | defines `join(', ')`: the elements with the separator between adjacent ones, and the empty text for no elements |
| Text.JoinLength | src/modules/job-offers/job-offers-scheduler.service.ts:111 | the joined text has the length of the elements plus one separator between each adjacent pair |
| Text.IsJsSpace | src/modules/job-offers/job-offers-scheduler.service.ts:84 | defines the characters JavaScript's `\s` class accepts |
| Text.Lower | src/modules/job-offers/job-offers.service.ts:21 | lower-casing keeps the length and folds each character independently |
| Text.ContainsIff | src/modules/job-offers/job-offers.service.ts:21 | the substring test holds exactly when the needle occurs at some offset |
| Text.Contains | src/modules/job-offers/job-offers.service.ts:21 | defines the substring search behind `ILIKE '%…%'` |
| Salary.DigitRunEndMaximal | src/modules/job-offers/job-offers-scheduler.service.ts:84 | `\d+` is greedy: the run holds only digits and the next character is not a digit |
| Salary.SpaceRunEndMaximal | src/modules/job-offers/job-offers-scheduler.service.ts:84 | `\s*` is greedy: the run holds only whitespace and the next character is not whitespace |
| Salary.ParseSalary | src/modules/job-offers/job-offers-scheduler.service.ts:84 | both captured groups are runs of digits |
| Salary.MatchAtSound | src/modules/job-offers/job-offers-scheduler.service.ts:84 | a match reported at a position is an occurrence of the whole pattern there, with the reported groups |
| Salary.MatchAt | src/modules/job-offers/job-offers-scheduler.service.ts:84 | defines one attempt of the regular expression at a given start position, with greedy runs |
| Salary.Spans | src/modules/job-offers/job-offers-scheduler.service.ts:84 | defines an occurrence of `\$(\d+)k\s*-\s*\$(\d+)k` as positions: `$`, digits, `k`, spaces, `-`, spaces, `$`, digits, `k` |
| Salary.MatchAtComplete | src/modules/job-offers/job-offers-scheduler.service.ts:84 | every occurrence of the pattern at a position is found there, with its groups |
| Salary.ParseSalaryLeftmost | src/modules/job-offers/job-offers-scheduler.service.ts:84 | a parsed salary is an occurrence of the pattern with exactly the reported groups, and no occurrence starts earlier |
| Salary.ParseSalaryOfLeftmost | src/modules/job-offers/job-offers-scheduler.service.ts:84 | conversely, the leftmost occurrence is the one parsed |
| Salary.ParseSalaryNone | src/modules/job-offers/job-offers-scheduler.service.ts:84-86 | no groups are returned exactly when the pattern occurs nowhere in the text |
| Salary.ParseSalaryExample | src/modules/job-offers/job-offers-scheduler.service.ts:83 | "$69k - $103k" yields the groups "69" and "103" |
| Salary.NoDollarNoMatch | src/modules/job-offers/job-offers-scheduler.service.ts:84 | a text without `$` never matches |
| Salary.UnparsableExample | src/modules/job-offers/job-offers-scheduler.service.ts:85-86 | "Competitive" yields no match |
| ExternalApis.FetchFromApi1 | src/modules/job-offers/external-apis.service.ts:12-32 | a missing URL, a failed request, a null body or a `jobs` field that is not an array all give no records; otherwise the records are the `jobs` array |
| ExternalApis.Configured | src/modules/job-offers/external-apis.service.ts:14-18 | defines a usable URL: present and not empty |
| ExternalApis.FlattenJobsList | src/modules/job-offers/external-apis.service.ts:46-49 | one record per entry, in order, carrying the entry's key as `jobId`; distinct keys give distinct `jobId`s |
| ExternalApis.KeysDistinct | src/modules/job-offers/external-apis.service.ts:46 | defines the distinct keys of a `jobsList` object, which `Object.entries` enumerates |
| ExternalApis.FlattenRoundTrip | src/modules/job-offers/external-apis.service.ts:46-49 | flattening loses nothing: the key/value pairs can be read back exactly |
| ExternalApis.FetchFromApi2 | src/modules/job-offers/external-apis.service.ts:34-58 | records come only from a configured URL and a reply with status "success" and a `jobsList`, and are then the flattened `jobsList` |
| ExternalApis.Api2Accepted | src/modules/job-offers/external-apis.service.ts:44 | defines an accepted reply: received, with status "success" and a `jobsList` |
| Store.Insert | src/modules/job-offers/job-offers.service.ts:50-53 | one row is appended with the next id and time, and the counters advance |
| Store.TableValid | src/entities/job-offer.entity.ts:29-36 | defines a consistent table: unique `externalId`s, ids and creation times strictly increasing in store order, `updatedAt` equal to `createdAt` |
| Store.InsertValid | src/entities/job-offer.entity.ts:29-30 | inserting an absent identity keeps the table valid |
| Store.Save | src/modules/job-offers/job-offers-scheduler.service.ts:122-138 | validity is kept and existing rows are never changed; exactly one row, equal to the draft, is added exactly when the `externalId` is non-empty and absent; otherwise nothing changes |
| Store.NonEmptyIdsConcat | src/modules/job-offers/job-offers-scheduler.service.ts:124 | the identities of two batches together are the union of their identities |
| Store.SaveAllValid | src/entities/job-offer.entity.ts:29-30 | saving a batch keeps the unique constraint and the other table invariants |
| Store.SaveAll | src/modules/job-offers/job-offers-scheduler.service.ts:41-48 | defines saving a batch: `saveOffer` applied to each draft in order |
| Store.SaveAllKeepsRows | src/modules/job-offers/job-offers-scheduler.service.ts:129-134 | saving a batch never changes, reorders or removes an existing row |
| Store.SaveAllIds | src/modules/job-offers/job-offers-scheduler.service.ts:124-132 | after a batch, the stored identities are the old ones plus the batch's non-empty ones |
| Store.SaveAllNoop | src/modules/job-offers/job-offers-scheduler.service.ts:131 | a batch whose identities are all stored changes nothing |
| Store.SaveAllIdempotent | src/modules/job-offers/job-offers-scheduler.service.ts:122-138 | saving the same batch a second time changes nothing |
| Store.SaveAllSnoc | src/modules/job-offers/job-offers-scheduler.service.ts:41-48 | saving a batch extended by one draft is saving the batch and then that draft |
| Store.SaveAllStep | src/modules/job-offers/job-offers.service.ts:93-98 | the first i + 1 drafts are saved by saving the first i and then draft i |
| Store.SaveAllConcat | src/modules/job-offers/job-offers-scheduler.service.ts:24-27 | saving two batches one after the other is saving their concatenation |
| Store.SaveAllGrowth | src/modules/job-offers/job-offers-scheduler.service.ts:131-132 | a batch adds exactly one row per new non-empty identity |
| Store.GrowthByIds | src/entities/job-offer.entity.ts:29-30 | with unique identities, row counts follow the identity sets |
| JobOffers.JobOffersService.constructor | src/modules/job-offers/job-offers.service.ts:10-13 | the service starts over the valid table the injected repository holds, unchanged |
| JobOffers.JobOffersService.FindByExternalId | src/modules/job-offers/job-offers.service.ts:55-57 | a row is found exactly when one carries the identity, and the row found is a stored row with that identity |
| JobOffers.JobOffersService.Create | src/modules/job-offers/job-offers.service.ts:50-53 | a duplicate identity is refused with no change; otherwise the table becomes `Insert` of the old one and the new row is returned |
| JobOffers.JobOffersService.CreateTestData | src/modules/job-offers/job-offers.service.ts:59-98 | the table becomes the old one with the three seed offers saved in order |
| JobOffers.SeniorEngineerOffer | src/modules/job-offers/job-offers.service.ts:61-70 | the first seed offer is "TEST_1" |
| JobOffers.FrontendOffer | src/modules/job-offers/job-offers.service.ts:71-80 | the second seed offer is "TEST_2" |
| JobOffers.DevOpsOffer | src/modules/job-offers/job-offers.service.ts:81-90 | the third seed offer is "TEST_3" |
| JobOffers.TestOfferIds | src/modules/job-offers/job-offers.service.ts:60-91 | the seed identities are exactly TEST_1, TEST_2 and TEST_3 |
| JobOffers.SeedCreatesMissing | src/modules/job-offers/job-offers.service.ts:93-98 | seeding creates exactly the seed offers that are absent (none when all three exist), keeps every existing row, and leaves all three present |
| JobOffers.SeedTwice | src/modules/job-offers/job-offers.service.ts:59-98 | a second seeding changes nothing, and each seed row exists exactly once |
| Query.Filter | src/modules/job-offers/job-offers.service.ts:20-34 | the result is no longer than the rows |
| Query.Matches | src/modules/job-offers/job-offers.service.ts:20-34 | defines the WHERE clause: each supplied, truthy filter must hold, and a missing column fails its comparison |
| Query.TextActive | src/modules/job-offers/job-offers.service.ts:20-26 | defines the truthiness guard on the title and location filters: present and not empty |
| Query.NumberActive | src/modules/job-offers/job-offers.service.ts:28-34 | defines the truthiness guard on the salary filters: present and not 0 |
| Query.ILikeContains | src/modules/job-offers/job-offers.service.ts:21-25 | defines `column ILIKE '%needle%'` as case-folded substring search |
| Query.FilterCounts | src/modules/job-offers/job-offers.service.ts:20-34 | each matching row is kept as often as it is stored, and no other row is kept |
| Query.NoFilterKeepsAll | src/modules/job-offers/job-offers.service.ts:20-32 | absent, empty or zero filters keep every row |
| Query.FilterIgnoresPaging | src/modules/job-offers/job-offers.service.ts:16-34 | the filter reads neither `page` nor `limit` |
| Query.InsertNewestFirst | src/modules/job-offers/job-offers.service.ts:38 | insertion adds exactly the one row |
| Query.InsertKeepsSorted | src/modules/job-offers/job-offers.service.ts:38 | inserting into a newest-first sequence keeps it newest first |
| Query.SortNewestFirst | src/modules/job-offers/job-offers.service.ts:38 | the result is a permutation of the input, ordered newest first |
| Query.SortIncreasingIsReverse | src/modules/job-offers/job-offers.service.ts:38 | rows stored in creation order are returned in reverse store order |
| Query.FilterKeepsIncreasing | src/modules/job-offers/job-offers.service.ts:20-34 | filtering keeps creation order |
| Query.OrderedIsReverseOfStore | src/modules/job-offers/job-offers.service.ts:36-40 | the ordered result is the matching rows in reverse store order |
| Query.ValidRowsIncreasing | src/entities/job-offer.entity.ts:32-33 | a valid table holds its rows in creation order |
| Query.StoredResultStrictlyNewestFirst | src/modules/job-offers/job-offers.service.ts:38 | over a valid table the ordered result is the matching rows in reverse store order, strictly newest first with no ties |
| Query.Window | src/modules/job-offers/job-offers.service.ts:36-37 | `skip`/`take` returns at most `take` rows, item k being row `skip + k`, and nothing past the end |
| Query.CeilDiv | src/modules/job-offers/job-offers.service.ts:46 | the result is the least page count that holds all rows, and it is 0 exactly when there are none |
| Query.FindAll | src/modules/job-offers/job-offers.service.ts:15-48 | `page` is echoed, `total` counts every matching row, `totalPages` is the ceiling of total over limit, and at most `limit` items are returned |
| Query.Skip | src/modules/job-offers/job-offers.service.ts:36 | defines `skip` as `(page - 1) * limit` |
| Query.FindAllSlice | src/modules/job-offers/job-offers.service.ts:36-38 | the items are the ordered matching rows from `(page - 1) * limit` on: a full page, the remainder, or nothing past the end |
| Query.FindAllItems | src/modules/job-offers/job-offers.service.ts:20-38 | every returned item is a stored row that satisfies every supplied filter, and the page is newest first |
| Query.TotalIgnoresPage | src/modules/job-offers/job-offers.service.ts:40-47 | `total` and `totalPages` do not depend on the page asked for |
| Query.PageIsWindow | src/modules/job-offers/job-offers.service.ts:36-38 | page m + 1 is the window after m full pages |
| Query.ShownIsMin | src/modules/job-offers/job-offers.service.ts:36-37 | n pages show n * limit rows, or all rows when there are fewer |
| Query.PageSpan | src/modules/job-offers/job-offers.service.ts:36-38 | page m + 1 is the slice between what m pages and what m + 1 pages show |
| Query.AllPagesPrefix | src/modules/job-offers/job-offers.service.ts:36-38 | pages 1 to n together are a prefix of the ordered result |
| Query.PagesCoverResult | src/modules/job-offers/job-offers.service.ts:36-46 | pages 1 to totalPages together are exactly the ordered result: every matching row once, in order |
| Query.RowPageWithinCount | src/modules/job-offers/job-offers.service.ts:46 | the page of every matching row is within `totalPages` |
| Query.RowOnItsPage | src/modules/job-offers/job-offers.service.ts:36-38 | row i of the ordered result is item i mod limit of page i / limit + 1 |
| Scheduler.SalaryBounds | src/modules/job-offers/job-offers-scheduler.service.ts:85-86 | both bounds are set exactly when the pattern matches, and both are unset otherwise |
| Scheduler.SalaryBoundsOfLeftmost | src/modules/job-offers/job-offers-scheduler.service.ts:84-86 | the bounds are 1000 times the numbers of the leftmost occurrence's two groups |
| Scheduler.SalaryBoundsExample | src/modules/job-offers/job-offers-scheduler.service.ts:83-86 | "$69k - $103k" gives 69000 and 103000 |
| Scheduler.TransformApi1 | src/modules/job-offers/job-offers-scheduler.service.ts:77-100 | a record is skipped exactly when its `jobId` is empty, and fails exactly when it has a `jobId` but lacks `details`, `company` or `skills` |
| Scheduler.Api1Description | src/modules/job-offers/job-offers-scheduler.service.ts:91 | defines the first provider's description template |
| Scheduler.TransformApi2 | src/modules/job-offers/job-offers-scheduler.service.ts:102-120 | a record is skipped exactly when its `jobId` is empty, and fails exactly when a nested object it reads is missing |
| Scheduler.Api2Complete | src/modules/job-offers/job-offers-scheduler.service.ts:110-114 | defines a second-provider record whose nested reads do not throw: `employer`, `requirements` with `technologies`, `location` and `compensation` all present |
| Scheduler.LocationText | src/modules/job-offers/job-offers-scheduler.service.ts:112 | defines the second provider's location template |
| Scheduler.Api2Description | src/modules/job-offers/job-offers-scheduler.service.ts:111 | defines the second provider's description template |
| Scheduler.Api1DraftColumns | src/modules/job-offers/job-offers-scheduler.service.ts:88-97 | a complete first-provider record yields its title, company name, location and synthesised description, `sourceApi` "API1" and `externalId` "API1_" + jobId |
| Scheduler.Api1DraftSalary | src/modules/job-offers/job-offers-scheduler.service.ts:93-94 | its salary columns are the bounds parsed from `salaryRange` |
| Scheduler.Api2DraftColumns | src/modules/job-offers/job-offers-scheduler.service.ts:108-117 | a complete second-provider record yields its position, employer, composed location, synthesised description, compensation bounds unchanged, `sourceApi` "API2" and `externalId` "API2_" + jobId |
| Scheduler.LocationRemoteIff | src/modules/job-offers/job-offers-scheduler.service.ts:112 | the location is "city, state", followed by " (Remote)" exactly when the position is remote |
| Scheduler.Api1DescriptionParts | src/modules/job-offers/job-offers-scheduler.service.ts:91 | the description opens with the job type and closes with the skills joined by ", " |
| Scheduler.Api2DescriptionParts | src/modules/job-offers/job-offers-scheduler.service.ts:111 | the description holds the rendered experience and closes with the technologies joined by ", " |
| Scheduler.Api1IdentityInjective | src/modules/job-offers/job-offers-scheduler.service.ts:96 | two first-provider drafts share an identity only if their records share a `jobId` |
| Scheduler.Api2IdentityInjective | src/modules/job-offers/job-offers-scheduler.service.ts:116 | two second-provider drafts share an identity only if their keys are equal |
| Scheduler.ProvidersNeverCollide | src/modules/job-offers/job-offers-scheduler.service.ts:95-116 | a first-provider identity (`API1_` at line 96) never equals a second-provider identity (`API2_` at line 116) |
| Scheduler.Drafts | src/modules/job-offers/job-offers-scheduler.service.ts:43 | there are no more drafts than records, and every ready record's draft is among them; `DraftsFromReady` gives the converse and `BatchStep` the order |
| Scheduler.Completed | src/modules/job-offers/job-offers-scheduler.service.ts:40-49 | the count is the number of records minus the failed ones, so it never exceeds the input length |
| Scheduler.BatchStep | src/modules/job-offers/job-offers-scheduler.service.ts:41-48 | one more record saves its draft, if any, after the earlier ones, and counts unless it failed |
| Scheduler.Api1Outcomes | src/modules/job-offers/job-offers-scheduler.service.ts:41-48 | one outcome per fetched record, in array order: outcome k is the transform of record k |
| Scheduler.Api2Outcomes | src/modules/job-offers/job-offers-scheduler.service.ts:62-69 | one outcome per flattened record, in entry order: outcome k is the transform of record k |
| Scheduler.SaveOffer | src/modules/job-offers/job-offers-scheduler.service.ts:122-138 | the service's table becomes `Save` of the old one, and stays valid |
| Scheduler.SaveOutcomes | src/modules/job-offers/job-offers-scheduler.service.ts:40-49 | the loop counts the records that did not fail and leaves the table equal to the old one with every ready draft saved in order |
| Scheduler.FetchAndTransformApi1Offers | src/modules/job-offers/job-offers-scheduler.service.ts:35-54 | the first adapter's count and table after fetching, transforming and saving the reply's records |
| Scheduler.FetchAndTransformApi2Offers | src/modules/job-offers/job-offers-scheduler.service.ts:56-75 | the second adapter's count and table after fetching, transforming and saving the flattened records |
| Scheduler.FetchJobOffers | src/modules/job-offers/job-offers-scheduler.service.ts:19-33 | both counts, and a table with the first adapter's drafts and then the second adapter's drafts saved |
| Scheduler.DraftsFromReady | src/modules/job-offers/job-offers-scheduler.service.ts:43 | every saved draft is the draft of a record of the batch |
| Scheduler.Api1DraftsTagged | src/modules/job-offers/job-offers-scheduler.service.ts:78-81 | every draft the first adapter stores comes from a fetched record with a non-empty `jobId` and carries "API1_" + that `jobId` |
| Scheduler.Api2DraftsTagged | src/modules/job-offers/job-offers-scheduler.service.ts:103-106 | every draft the second adapter stores comes from a fetched record with a non-empty key and carries "API2_" + that key |
| Scheduler.FailedFetchStoresNothing | src/modules/job-offers/external-apis.service.ts:14-57 | an unconfigured URL or a failed or rejected reply stores nothing and counts 0 |
| Scheduler.TickGrowth | src/modules/job-offers/job-offers-scheduler.service.ts:19-33 | a tick keeps identities unique, never touches an existing row, and adds exactly one row per new identity from either provider |
| Scheduler.Tick | src/modules/job-offers/job-offers-scheduler.service.ts:19-33 | defines one run of `fetchJobOffers` as a table: the first adapter's drafts saved, then the second adapter's |
| Scheduler.TickTwice | src/modules/job-offers/job-offers-scheduler.service.ts:19-33 | re-running a tick over the same replies changes nothing |

## Left out

- HTTP requests, `ConfigService` and the cron trigger. Each provider's reply and URL is a parameter (`HttpReply`, `Option<string>`). Transport failures, timeouts and JSON parse errors are the single `RequestFailed` case.
- Logging. Every `logger` call only observes, so it is dropped.
- The concurrency of `Promise.all` in `fetchJobOffers`. The two adapters run one after the other, first provider first. Their interleaving at each `await` is not modelled.
- Scheduler.FetchJobOffers: a database error caught by `saveOffer`'s `try` is not modelled, because the in-memory table cannot fail.
- Scheduler.FetchJobOffers: the outer `try` that only logs is not modelled, because nothing in the model throws there.
- Scheduler.FetchJobOffers: `fetchJobOffers` returns nothing and only logs the two adapter counts; the model returns those logged counts as its results.
- The generated UUID `id` is modelled as a counter. The `Date` timestamps are modelled as a strictly increasing natural-number clock.
- Numbers are unbounded integers. Two things about JavaScript numbers are therefore not modelled:
  - floating point and the `decimal` column type;
  - `parseInt` on digit runs too long to be exact.
- `ILIKE` is modelled as ASCII case folding plus substring search. Three things are not modelled:
  - Unicode case folding;
  - the `%`/`_` wildcards inside the filter text;
  - the backslash, which is the pattern's default escape character, so a filter text containing `\` means something different from the model's literal search.
- The `NOT NULL` constraints on `title`, `company` and `sourceApi` are not modelled. The model's columns are never null.
- A `null` element inside a provider's array or map is not modelled. Records are always objects, and only their nested objects can be missing.
- The enumeration order of `Object.entries` is taken to be the order of the given entry sequence.
- The provider field `details.type` is named `jobType`, because `type` is a keyword.
- Query.FindAll: requires a request that passes the DTO's validation (`IsValid`); unvalidated requests are not modelled.
- `JobOffersService.findAll` is not a method of the class. It is the pure function `Query.FindAll` applied to the stored rows.
- Scheduler.TransformApi1: `parseInt` and `* 1000` are applied in `SalaryBounds`, after the regular expression has captured the digit groups as text.
- The transforms of one batch are computed before its drafts are saved. This is equivalent to the source, because a transform reads nothing the saves write.
- The controller, the bootstrap code, the database initialisation and the module wiring are not part of this model.
