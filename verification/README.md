# What the jobs backend promises, proved in Dafny

This project models the state-heavy services of the jobs backend and proves what they keep over
whole runs. Each module stands for one source file or one component. Where the code changes rows or
fills dictionaries in loops, the model is a class or a method with loops, proved equal to a
specification function; the properties are then lemmas about that function.

- **Duplicate grouping** (`JobDedup`, `Regroup`, `RegroupLaws`, `RegroupReruns`, `PostingTable`).
  Re-grouping a company's postings uses two hash indexes and one pass over rows in priority order.
  It is proved equal to the plain greedy rule on rows alone: a row is a duplicate exactly when a
  primary ahead of it is at the same place, and it joins the nearest one. Groups are one level deep,
  no two primaries of a title are at the same place, and no member outranks its primary.
- **Paid AI access** (`AiAccess`, `AiAccessLaws`, `RequestMeters`). Requests are transactions: an
  insert under a unique key, a conditional UPDATE that takes the user's row lock, an LLM call, a
  commit or a rollback. In every interleaving the counters are exactly the committed uses, within
  their limits.
- **Auto-score runs** (`AutoScore`, `AutoScoreLaws`). A three-stage run worked on by deliveries that
  may die between any two effects, and be answered differently each time, ends with the status, scores
  and application of one that was never interrupted and got the answers that were kept.
- **Job collections** (`JobCollections`, `CollectionLaws`, `CollectionTypes`, `Discovery`,
  `Duplicates`, `Dimensions`, `CollectionStats`, `Qualification`, `QualificationLaws`). Statuses form a
  path of allowed moves; nightly dates are the starts of the current streaks; the inverted index finds
  exactly the near-duplicates; statistics in memory agree with SQL under its three-valued logic; and
  discovery scores a group as the nightly run will score the collection it becomes.
- **Tokens, subscriptions, domains** (`OAuth`, `Billing`, `CompanyLogos`). Token pairs descend in
  single chains (sections 4.1.2 and 6 of RFC 6749, section 2.1 of RFC 7009), webhooks converge on
  the active subscription, and at most two companies claim one site's domain.
- **Crawling** (`Coverage`, `CrawlSchedule`, `CrawlWorker`). The coverage baseline, the crawl
  interval and the daily full read, over any run of crawls of a source.

`Base`, `Sorting` and `Rounding` are shared helpers: optional values, Python's stable sort, Python's
half-to-even `round`.

## How the source is read

Ids and keys that the code compares as strings are numbers in that order. A location key is the set
of its folded entries. A row's places carry the order Python iterates their set in. Looking up a
place, normalizing a name, the LLM's answers, the time zone, logo lookups and Stripe's subscriptions
are arbitrary values or functions, so each result holds for all of them; a time zone is only assumed
to have days that are half-open intervals, and for full reads days of at most 25 hours with a wall
clock at most an hour ahead of the time since midnight. Floating-point numbers are reals. Tokens are
fresh. Jitter is any value in the stated range. White space in a reason is a space, a tab, a line
feed or a carriage return.

Laws that say what a result is are stated on the rows' own columns with the numbers written out, so
that they do not lean on the functions the code and its specification share.

Assumptions that a main result names in its `requires`:

- meters: no posting is deleted; a subscriber's period end never returns to an old value and does not
  change inside a request;
- auto-score: deliveries come one at a time, none arrives past the stale limit, and nothing else
  writes the run or the application meanwhile;
- statistics: a company key or a currency is never the empty string;
- discovery: a job's titles and areas do not repeat, slugs go back to one title or area and are
  letters, digits and hyphens;
- webhooks: Stripe has one active subscription for the customer, and no checkout moves the user to
  another one;
- re-grouping: distinct ids, and a row outside the matching points at a row that is matched or is
  its own primary.

## Where the code differs from its documentation

- `one_off/redo_dedup.py:21` calls the script idempotent. The set of primaries is kept, but a pointer
  may move on the second run: `RegroupReruns.OneRunMayNotBeEnough` gives three fresh postings for
  which it does. `RegroupReruns.LeftAloneIffSettled` says of any table exactly when a run leaves it
  alone, and `RegroupReruns.FixpointAfterTwoRuns` that two runs are always enough.
- `app/services/job_dedup.py:287-288` says groups never chain. A live rescan of a row that heads a
  group can chain them (`PostingTable.RescanMayChain`); `PostingTable.PointingKeepsFlat` is the exact
  condition.
- `app/services/collection_discovery.py:18-19` says an archived collection is never proposed again.
  The code proposes again the ones whose archiving event was the lifecycle's, and the model does too:
  `Discovery.Discover` picks them like new ones, and `JobCollections.ComesBackIffChosen` says that
  exactly those picked come back and that no collection a person archived does.
- A subscriber whose period end is NULL is outside the unique key (`app/services/ai_access.py:293-301`
  says a concurrent request finds the job unlocked). `AiAccessLaws.NullPeriodPaysTwice` is a run in
  which one job is paid for twice, and `AiAccessLaws.TwicePaidIffNullPeriod` the exact condition.
- A checkout that names a user and another customer moves the user to that customer, even when its
  subscription is canceled and ignored (`app/services/billing.py:159-172`). The user keeps the old
  active subscription and no longer sees its renewals: `Billing.CheckoutLosesRenewals`.
  `Billing.FollowsUnlessMoved` and `Billing.FollowsIffNeverMoved` are the exact condition.
- An empty currency counts as dollars in memory and not in SQL. `Dimensions.ClauseIsMatches` and
  `CollectionStats.SalaryClauseIsListed` are the exact conditions, `Dimensions.EmptyCurrencyDisagrees`
  and `CollectionStats.EmptyCurrencyChangesNumbers` a posting that shows it.

## Model

| member | source | states |
|---|---|---|
| JobDedup.LocationKeysAgree | app/services/job_dedup.py:129-149 | two location lists get one key exactly when each names the other's places; order, repeats, blanks and country-only entries do not matter |
| Regroup.FindForeign | one_off/redo_dedup.py:110-112 | the first primary in a city that comes from another site |
| Regroup.FindByCity | one_off/redo_dedup.py:109-113 | reading the place index gives what a scan of the kept primaries, city by city, would give |
| Regroup.AddToPlaces | one_off/redo_dedup.py:118-120 | each of the row's places gains the row at its end, and no other list changes |
| Regroup.AddPrimary | one_off/redo_dedup.py:115-120 | both indexes again describe the kept primaries with the new one added |
| Regroup.FindPrimary | one_off/redo_dedup.py:105-113 | the indexed lookup equals the search over kept primaries: exact location first, then shared cities |
| Regroup.GroupBucket | one_off/redo_dedup.py:99-120 | the scan of a sorted bucket equals the greedy rule over the list of kept primaries |
| Regroup.FillBuckets | one_off/redo_dedup.py:91-98 | buckets hold each title's matched rows in order, and every other row gets a placeholder |
| Regroup.MatchTitles | one_off/redo_dedup.py:91-120 | whatever order the titles are taken in, every row gets the same entry |
| Regroup.RegroupRows | one_off/redo_dedup.py:85-129 | the whole pass, with the re-pointing of rows outside the matching, equals the specification that the laws below pin on the rows' own columns |
| RegroupLaws.ChoiceIsNearest | one_off/redo_dedup.py:105-113 | the lookup finds a primary exactly when some kept one is at the same place, and then the nearest of them |
| RegroupLaws.RegroupIsGreedy | one_off/redo_dedup.py:85-120 | on rows alone: a matched row is a duplicate exactly when a primary of its title ahead of it satisfies same_place, and it points at the nearest such one |
| RegroupLaws.PrimariesApart | one_off/redo_dedup.py:85-120 | no two primaries of a title satisfy same_place |
| RegroupLaws.PrimaryOutranks | one_off/redo_dedup.py:99-100 | no duplicate outranks its primary in (official, open) order |
| RegroupLaws.AheadIsKeyOrder | one_off/redo_dedup.py:99-100 | the scan's order is the sort key's: official, open, without an old pointer, earlier created, lower id |
| RegroupLaws.OldestIsPrimary | one_off/redo_dedup.py:99-113 | on raw columns: a duplicate's primary is no less official, then no less open; among equals it has no old pointer if the duplicate has none, and then it was created earlier, or at the same moment with a lower id |
| RegroupLaws.PrimaryIffFirst | one_off/redo_dedup.py:99-120 | on raw columns: a scanned posting stays a primary exactly when no primary of its title that comes first by that key is at its place |
| RegroupReruns.RegroupTotal | one_off/redo_dedup.py:91-129 | every input id gets one entry and nothing else does |
| RegroupReruns.UnmatchedResult | one_off/redo_dedup.py:122-128 | a row outside the matching ends with nothing, its old group's new primary, or its old pointer |
| RegroupReruns.ScannedTarget | one_off/redo_dedup.py:91-128 | whatever a scanned posting points at after a run is itself a scanned, titled posting of the same title that points nowhere |
| RegroupReruns.NewPrimaryIsScanned | one_off/redo_dedup.py:91-128 | a posting that was not scanned, or has no title, becomes no row's primary in a run: at most a row outside the matching keeps the pointer it had to one |
| RegroupReruns.RegroupFlat | one_off/redo_dedup.py:85-129 | every target is itself a primary in the result, rows outside the matching included |
| RegroupReruns.RerunKeepsPrimaries | one_off/redo_dedup.py:19-24 | writing the result back and running again keeps the same set of primaries |
| RegroupReruns.Standing | one_off/redo_dedup.py:99-120 | on a table whose primaries are apart and whose duplicates all have a primary of no lower class at their place, a run keeps every row's standing |
| RegroupReruns.TargetIsPreferred | one_off/redo_dedup.py:99-113 | and sends each duplicate to the primary it prefers to every other, by fit, class and age |
| RegroupReruns.LeftAloneIffSettled | one_off/redo_dedup.py:85-129 | on any table a run changes no pointer exactly when primaries are apart, each duplicate points at its preferred primary, and unmatched rows point at rows that point nowhere |
| RegroupReruns.UnmatchedStays | one_off/redo_dedup.py:122-128 | rows outside the matching do not move on the second run |
| RegroupReruns.IdempotentIffSettled | one_off/redo_dedup.py:19-24 | a second run changes nothing exactly when the first one left the table settled in that sense |
| RegroupReruns.GroupedSettles | one_off/redo_dedup.py:85-129 | a run over a table an earlier run grouped settles it |
| RegroupReruns.FixpointAfterTwoRuns | one_off/redo_dedup.py:85-129 | whatever the first run did, the second run's result is final |
| RegroupReruns.OneRunMayNotBeEnough | one_off/redo_dedup.py:99-113 | three postings without pointers on which a second run moves one |
| PostingTable.Table.FindDuplicatePrimary | app/services/job_dedup.py:283-326 | the oldest open canonical row with the same keys and place, or none when there is none |
| PostingTable.Table.ClaimPrimary | app/services/job_dedup.py:329-344 | the old primary and its duplicates point at the claiming row, which points nowhere, and nothing else changes |
| PostingTable.ClaimKeepsFlat | app/services/job_dedup.py:329-344 | a claim keeps groups one level deep |
| PostingTable.ClaimMergesTwoGroups | app/services/job_dedup.py:329-344 | a claim merges exactly the two groups, under the claiming row |
| PostingTable.Table.Backfill | one_off/backfill_dedup_keys.py:43-87 | from null keys and pointers the loop keys each scanned posting up to the limit, groups it with earlier ones, and ends flat; a dry run changes nothing |
| PostingTable.BackfillPointsBack | one_off/backfill_dedup_keys.py:57-82 | every duplicate points at the first earlier row that is scanned, open, canonical, with its keys and at its place |
| PostingTable.BackfillFlat | one_off/backfill_dedup_keys.py:57-82 | the backfilled table is flat |
| PostingTable.Table.RescanGrouping | app/services/jobs.py:1280-1294 | a rescan points the row at its duplicate or claims that group; groups stay flat exactly when it claims, finds nothing, or heads no group |
| PostingTable.PointingKeepsFlat | app/services/jobs.py:1283 | pointing a row at what was found keeps groups flat exactly when nothing was found or no duplicate points at the row |
| PostingTable.RescanMayChain | app/services/job_dedup.py:283-326 | a flat table on which a rescan chains two groups |
| AiAccess.Database.UnlockJob | app/services/ai_access.py:256-328 | with nobody in the way, the insert and the conditional UPDATE are the two steps of the interleaving model, and a failed UPDATE takes the row back out |
| AiAccess.Database.JobLlmCredentials | app/services/ai_access.py:331-349 | in the account's columns: an active plan pays, then the user's own key, unmetered, then the free trial; a job with no row yet is refused exactly when the period or the trial is used up; it is the interleaving model's request start, insert and UPDATE, and nothing is committed yet |
| AiAccess.Database.EndRequest | app/db/session.py:17-27 | commit writes the row and the counter together, rollback neither |
| AiAccessLaws.StepInv | app/services/ai_access.py:256-328 | every step of every request keeps counters equal to rows, locks exclusive and pending charges valid |
| AiAccessLaws.RunInv | app/services/ai_access.py:256-328 | so does every interleaved run from a fresh database |
| AiAccessLaws.MetersAreExact | app/services/ai_access.py:110-138 | the free counter equals the unlock rows and stays within the limit, the period's reading equals the period's rows, no period has more rows than a positive limit, and a job has at most one row per period that is not NULL |
| AiAccessLaws.RemainingIsExact | app/services/ai_access.py:110-113 | in every interleaving what is told to remain of the trial is the limit less the jobs unlocked with it, or nothing when it is off |
| AiAccessLaws.RowWasAsked | app/services/ai_access.py:331-349 | every committed row goes back to a request for that job, when it had no such row: a trial row to a user with neither a plan nor a key of their own, a plan row to a subscriber whose period then ended when the row says |
| AiAccessLaws.PayingCommitCharges | app/services/ai_access.py:256-328 | a paying commit adds one row, for a job not unlocked before when the key binds, and one to its meter, and touches no other meter or user |
| AiAccessLaws.OnlyCommitsCharge | app/services/ai_access.py:256-275 | a request that waits, is refused, loses its LLM call or dies leaves rows and counters unchanged |
| AiAccessLaws.PaidBeforeUse | app/services/ai_access.py:331-349 | a metered key is only used for a job unlocked by a committed row or by the request's own |
| AiAccessLaws.TwicePaidIffNullPeriod | app/services/ai_access.py:293-328 | two requests that both found a job locked can both pay for it exactly when the period end is NULL and the limit leaves room for two |
| AiAccessLaws.NullPeriodPaysTwice | app/services/ai_access.py:278-328 | a run from fresh meters, starting with both requests asking, that ends with two rows for one job |
| RequestMeters.Database.UseSubscriptionRequest | app/services/ai_access.py:202-229 | a request is counted exactly when the limit is off or this period's reading is under it, and a new period starts at one |
| RequestMeters.Database.StructureLlmCredentials | app/services/ai_access.py:356-381 | in the account's columns: plan, then own key, then a free restructure, each refused exactly when none remains; it is the interleaving model's request start and UPDATE |
| RequestMeters.Database.EndRequest | app/db/session.py:17-27 | the counter is written at commit only |
| RequestMeters.StepInv | app/services/ai_access.py:202-229 | every step keeps the counters equal to the committed uses and at most one request holding the row lock |
| RequestMeters.CountsAreExact | app/services/ai_access.py:100-121 | in every interleaving this period's reading is the number of requests committed in it, and free restructures the number committed, both within their limits, NULL period ends included |
| RequestMeters.RemainingIsExact | app/services/ai_access.py:104-107 | what is told to remain of the free restructures is the limit less those committed |
| RequestMeters.WhoPays | app/services/ai_access.py:356-381 | which meter a request goes to, exactly, in the account's columns |
| RequestMeters.UseWasSent | app/services/ai_access.py:202-229 | every counted request was asked for by a user who had the plan, in the period it is counted in, and every free restructure by one with neither plan nor key |
| RequestMeters.OnlyCommitsCount | app/services/ai_access.py:202-229 | nothing but a paying commit changes a counter |
| AutoScore.Worker.RunStage | app/services/auto_score.py:171-238 | one stage: status commit, LLM call, result commit or failure, with death possible before each |
| AutoScore.Worker.Finish | app/services/auto_score.py:250-285 | one commit: below 75 the run ends with its first score as best; else best is the greater of the two scores and the run and the application are ready exactly when either is 85 or more |
| AutoScore.Worker.LatestRun | app/services/auto_score.py:82-108 | a poll fails a run past 300 seconds and sends one back to the worker exactly when its lease is over (60 seconds queued, 150 tailoring, 90 scoring); the worker then takes it up |
| AutoScore.Worker.RunAutoScore | app/services/auto_score.py:171-238 | a delivery leaves alone what ended, is leased or is stale, else resumes after the last finished stage |
| AutoScoreLaws.HistoryGood | app/services/auto_score.py:152-238 | after any deliveries that died anywhere, each with answers of its own, the committed results are those of the deliveries that committed them and the calls are accounted for |
| AutoScoreLaws.LivingDeliveryEnds | app/services/auto_score.py:171-238 | a delivery that takes the run up and lives ends it |
| AutoScoreLaws.CrashTransparency | app/services/auto_score.py:152-285 | a run that ends stands exactly as an uninterrupted one given the answers that were kept: status, scores, best score and application; each stage called the LLM once plus once per crash inside it; a delivery within a live lease or after the end changes nothing |
| AutoScoreLaws.EndedRunReads | app/services/auto_score.py:152-285 | in the run's own columns, over any deliveries: each final status exactly by the two scores against 75 and 85, best the greater of those there are, the application saved with this run's results, and until the end exactly the results that are in |
| AutoScoreLaws.ResultsWereAnswered | app/services/auto_score.py:200-230 | every result of a run is what the LLM answered one of its deliveries |
| AutoScoreLaws.LeftAloneExactly | app/services/auto_score.py:152-194 | a delivery leaves a run alone exactly when it has ended or, within 300 seconds of its start, another delivery's call may still be out (90 seconds for a score, 150 for a tailoring); past 300 seconds it fails it |
| AutoScoreLaws.RetryMayAnswerDifferently | app/services/auto_score.py:207-238 | an answer lost with its worker does not bind the retry: a run whose first call scored too low ends ready |
| AutoScoreLaws.OneDeathOneLoss | app/services/auto_score.py:207-238 | a delivery that dies loses at most one LLM call, and one that lives loses none |
| JobCollections.Registry.CreateCollection | app/services/job_collections.py:95-128 | a new candidate with its first event, or an error that changes nothing |
| JobCollections.Registry.Transition | app/services/job_collections.py:131-178 | a move succeeds exactly when the status may be entered from the old one, with a reason, an actor if manual, and manually if it publishes or indexes; then the status and its event change together, else nothing |
| JobCollections.Registry.ApplyAction | app/services/collection_admin.py:45-72 | each action succeeds exactly with a reason from its own statuses, ends in the index, out of it, archived or a candidate, and records the admin's events (an approval publishes what was not published before); otherwise nothing changes, and no other collection does |
| JobCollections.Registry.Record | app/services/collection_lifecycle.py:130-189 | a nightly scoring's new dates and its one move |
| JobCollections.ChangeAllowed | app/services/collection_lifecycle.py:130-175 | whatever move the nightly rule picks is one the system may make |
| JobCollections.Registry.RecordProposals | app/services/collection_discovery.py:112-130 | each chosen proposal is recorded, new or returning, and nothing else is touched |
| JobCollections.ComesBackIffChosen | app/services/collection_discovery.py:101-135 | a collection that was there changes exactly when it was chosen, and then it had been archived by the lifecycle and comes back as a candidate or qualified |
| JobCollections.RecordAllAt | app/services/collection_discovery.py:112-130 | every recorded key ends with its own proposal's collection |
| JobCollections.RecordedReads | app/services/collection_discovery.py:112-130 | a recorded collection is qualified if it earned an index and a candidate otherwise, with its dates started over and one event for each status after those it had |
| JobCollections.PathStep | app/services/collection_admin.py:45-72 | every path of an admin action is allowed move by move |
| CollectionLaws.RunHistory | app/services/job_collections.py:53-178 | every step keeps the history one connected path of allowed moves ending at the status |
| CollectionLaws.EveryRunIsAccountable | app/services/job_collections.py:53-178 | each status was entered from one it may follow, what is published or in the index was put there by a named person since it last entered, every event has a reason, and only a person undoes a person's archive |
| CollectionLaws.ActionRecordsItself | app/services/collection_admin.py:63-72 | a completed action ends where its path ends, and each of its moves is that admin's, with the reason |
| CollectionLaws.RunStreaks | app/services/collection_lifecycle.py:130-150 | over any nightly scorings the two dates are the first dates of the current unbroken streaks |
| CollectionLaws.EmptyWithinBelow | app/services/collection_lifecycle.py:130-150 | every empty streak lies inside a below-bar streak |
| CollectionLaws.AutomaticRemoval | app/services/collection_lifecycle.py:150-175 | a scoring archives exactly after a streak of 14 empty days, and takes out of the index exactly after 3 days below the bar that no approval stands over |
| CollectionLaws.ScoringMoves | app/services/collection_lifecycle.py:147-175 | the other moves of a scoring, exactly: a qualified collection without an index score is a candidate again and a candidate with one is qualified, unless archived; each move is one event by the system, and without one the history stays |
| CollectionLaws.ApprovalStandsForTheStreak | app/services/collection_lifecycle.py:178-184 | a person's approval in a below-bar streak stops automatic noindex for the rest of it |
| CollectionTypes.CollectionTypeFor | app/services/job_collections.py:67-78 | the one type the values make, or an error naming the kinds exactly when they make none |
| CollectionTypes.OneTypeEach | app/services/job_collections.py:39-51 | no combination of values makes two types |
| CollectionTypes.KeyInjective | app/services/job_collections.py:81-82 | different combinations have different keys |
| CollectionTypes.KeyText | app/services/job_collections.py:81-82 | a key is category, role, location, salary and freshness, those there are, in that order, as name=slug |
| CollectionTypes.RoleKeys | app/services/job_collections.py:81-82 | the text of the keys of a role and of a role in a location |
| Discovery.GroupJobs | app/services/collection_discovery.py:58-74 | the two dictionaries hold, for every role and area, what one pass over the jobs puts there |
| Discovery.GroupByTitle | app/services/collection_lifecycle.py:77-80 | the nightly run's dictionary holds every title's jobs |
| Discovery.RoleGroupIsMembership | app/services/collection_discovery.py:61-69 | a role's group is exactly the open jobs the role's dimension matches, once each and in order |
| Discovery.AreaGroupIsMembership | app/services/collection_discovery.py:61-74 | a role and area's group is exactly the open jobs both dimensions match |
| Discovery.DiscoveryScoresLikeNightly | app/services/collection_lifecycle.py:60-66 | discovery scores a group exactly as the nightly run scores that collection over the same jobs |
| Discovery.ProposalsScoreLikeNightly | app/services/collection_discovery.py:76-86 | every proposal is for a role and area that exist, with the nightly score |
| Discovery.Propose | app/services/collection_discovery.py:54-86 | a proposal for every group of at least 20 jobs, once, and for nothing else, best score first and then by key |
| Discovery.Pick | app/services/collection_discovery.py:101-109 | the first `limit` of the new proposals, most searched first, then best score, then key, and every new one left out ranks behind |
| Discovery.KeysDiffer | app/services/collection_discovery.py:46-51 | different proposals of one run have different keys |
| Discovery.Discover | app/services/collection_discovery.py:89-131 | the whole of it, in raw columns: of the groups of at least 20 jobs not below the bar, whose key is new or was archived by the lifecycle, the first `limit` by demand, score and key; exactly those are recorded, qualified or candidates, and nothing else changes; a dry run records nothing |
| Discovery.NightlyInRange | app/services/collection_lifecycle.py:60-66 | every nightly score is out of 100, since a collection's jobs are among its parent's |
| Duplicates.IndexByJob | app/services/collection_lifecycle.py:117-120 | each job lists exactly the collections that hold it |
| Duplicates.CountPairs | app/services/collection_lifecycle.py:121 | each pair of a job's collections gains one, and no other |
| Duplicates.CountShared | app/services/collection_lifecycle.py:121 | each pair's count is the number of jobs listing both |
| Duplicates.SharedIsIntersection | app/services/collection_lifecycle.py:117-121 | that count is the size of the two collections' intersection |
| Duplicates.FindDuplicates | app/services/collection_lifecycle.py:114-127 | the inverted index lists exactly the pairs whose intersection is at least nine tenths of the longer list, each list in order |
| Duplicates.DuplicateSymmetric | app/services/collection_lifecycle.py:114-127 | being near-duplicates is symmetric and never with itself |
| Duplicates.OnlyEmptyPairsSkipped | app/services/collection_lifecycle.py:114-127 | the only pairs that share enough and are not counted are two empty collections |
| Dimensions.ClauseIsMatches | app/services/collection_dimensions.py:100-240 | for each kind of dimension the SQL condition is true of a row exactly when the job matches, if and only if the row is not one with an empty currency whose figure meets the salary floor |
| Dimensions.ClauseAllIsMatchesAll | app/services/collection_dimensions.py:89-94 | and so for any list of dimensions, the exception being a job memory puts in with such a floor among them |
| Dimensions.WindowsNest | app/services/collection_dimensions.py:169-240 | what the freshness and salary dimensions mean in days and dollars, so longer windows and lower floors only add jobs |
| Dimensions.EmptyCurrencyDisagrees | app/services/collection_dimensions.py:169-186 | a posting at $100,000 in an empty currency on which the two disagree |
| CollectionStats.MedianAnyOrder | app/services/collection_stats.py:179-181 | a median does not depend on the order figures are read in |
| CollectionStats.AnnualKeeps | app/services/collection_stats.py:179-181 | the median looks at each figure from 1,000 to 2,000,000 as often as it is there, and at nothing else |
| CollectionStats.MedianMeans | app/services/collection_stats.py:179-181 | the median of those figures: none without any; of an odd number the one with more than half at or below and at or above it; of an even number the rounded mean of the two middle ones |
| CollectionStats.SplitsAreUnique | app/services/collection_stats.py:179-181 | no two different figures split the list so, so that is one number |
| CollectionStats.SalaryClauseIsListed | app/services/collection_stats.py:161-176 | a salary is listed alike in memory and in SQL exactly when the currency is not empty or neither figure is plausible |
| CollectionStats.EmployerIsColumn | app/services/collection_stats.py:84-130 | an employer is counted alike exactly when the company key is not empty or the domain is |
| CollectionStats.MemoryAgreesWithDatabase | app/services/collection_stats.py:84-182 | over any dimensions and any row order the statistics in memory equal the database's, field by field |
| CollectionStats.CountsMean | app/services/collection_stats.py:84-102 | each count is that of the collection's open jobs with the property in their own columns, found and verified in the last 86,400 seconds |
| CollectionStats.CompaniesMean | app/services/collection_stats.py:84-102 | companies are company keys, and domains for jobs without one |
| CollectionStats.SalariesMean | app/services/collection_stats.py:84-102 | the salary numbers are about the jobs with a plausible figure in dollars |
| CollectionStats.EmptyCurrencyChangesNumbers | app/services/collection_stats.py:161-176 | one posting in an empty currency whose salary count and median differ |
| Qualification.TotalInRange | app/services/collection_qualification.py:105-192 | full marks come to 100 and nothing goes past it, whichever components count, and only a negative uniqueness can go below 0 |
| Qualification.EvaluationInRange | app/services/collection_qualification.py:105-192 | every score is at most 100, at least 0 for a collection within its parent, and negative for a parent a tenth of its size |
| Qualification.EmptyIsBelowBar | app/services/collection_qualification.py:105-192 | a collection with no open job always scores below the bar |
| Qualification.ScoringIsAllowed | app/services/collection_lifecycle.py:130-145 | so any evaluation may be recorded as the next scoring of a collection in the runs above |
| Qualification.IndexExactly | app/services/collection_qualification.py:105-192 | INDEX is recommended exactly at 80 or more with 20 jobs, 5 employers, none dominant, apart from the parent and something recent |
| QualificationLaws.ScoreMeans | app/services/collection_qualification.py:105-183 | counts of the open jobs' own columns give the six shares, each with where it is full and how it falls off, and the total is their weighted mean (25, 15, 20, 10, 10 and 5) out of 85, or of 70, to within a point |
| QualificationLaws.TotalExactly | app/services/collection_qualification.py:182-184 | the exact total from components rounded to tenths, a half to the even one |
| QualificationLaws.TotalMonotone | app/services/collection_qualification.py:173-184 | no better share lowers the total |
| QualificationLaws.FresherScoresNoLower | app/services/collection_qualification.py:147-184 | more of the same jobs fresh never lowers it |
| QualificationLaws.RecommendsExactly | app/services/collection_qualification.py:185-190 | each recommendation, exactly: below the bar under 60; index at 80 with every gate passed in the jobs' own columns; review otherwise |
| OAuth.Server.CreateAuthorizationRequest | app/services/oauth.py:51-73 | an open request, nobody's yet |
| OAuth.Server.GetAuthorizationRequest | app/services/oauth.py:76-80 | the request while it is neither used nor past its time |
| OAuth.Server.ApproveAuthorizationRequest | app/services/oauth.py:83-101 | an open request not approved before becomes the user's, with one code |
| OAuth.Server.DenyAuthorizationRequest | app/services/oauth.py:104-109 | an open request is used up |
| OAuth.Server.ExchangeAuthorizationCode | app/services/oauth.py:151-171 | a code buys one pair and uses the request up, or nothing changes |
| OAuth.Server.ExchangeRefreshToken | app/services/oauth.py:188-216 | a live refresh token is replaced by a new pair and its own pair revoked, or nothing changes |
| OAuth.Server.RevokeOAuthToken | app/services/oauth.py:219-258 | either token of a pair revokes the pair, an unknown token nothing |
| OAuth.ApplyInv | app/services/oauth.py:83-258 | every call keeps pairs one to one, revoked together, and one live per chain |
| OAuth.LineageHolds | app/services/oauth.py:83-258 | over any calls: at most one live pair per chain, both tokens of a pair revoked together, and every pair has its request's user and one client |
| OAuth.OneChainPerRequest | app/services/oauth.py:151-171 | a used request is never redeemed again, so it starts at most one chain |
| OAuth.DeniedNeverRedeemed | app/services/oauth.py:104-109 | no calls after a denial redeem the request |
| OAuth.ApprovedStays | app/services/oauth.py:83-171 | over any calls a request keeps its client, and once approved its user, code and expiry |
| OAuth.RedeemedInTime | app/services/oauth.py:51-171 | whatever code is redeemed in any sequence of calls was approved within 600 seconds of its request and redeemed within 120 of that; the pair is the approving user's, good for 3,600 and 7,776,000 seconds |
| OAuth.Minted | app/services/oauth.py:112-148 | every refresh token was minted by one exchange, for its client, good for 90 days, with an access token good for an hour |
| OAuth.RefreshedInTime | app/services/oauth.py:188-216 | whatever is refreshed was good, minted for the same client at most 90 days before, is revoked with its access token, and gives the same user a new pair |
| OAuth.HintDoesNotMatter | app/services/oauth.py:219-236 | the token type hint changes the order of the search and not its effect |
| Billing.Accounts.SyncSubscription | app/services/billing.py:120-156 | the customer's user mirrors the subscription, unless an event for another one that is not active would displace it |
| Billing.Accounts.LinkCheckoutCustomer | app/services/billing.py:159-172 | a checkout gives the user it names the customer that paid, unless another user has it |
| Billing.Accounts.HandleEvent | app/services/billing.py:175-195 | a subscription checkout links the customer and then syncs, a subscription event syncs, and anything else changes nothing |
| Billing.PeriodEndIsLatest | app/services/billing.py:109-117 | the latest end its items report, else the subscription's own, and none exactly when neither has one |
| Billing.SyncReads | app/services/billing.py:120-156 | a sync's columns: nothing when another active or trialing subscription would be displaced by one that is neither, else id, status, latest end and whether it is set to end |
| Billing.FollowsUnlessMoved | app/services/billing.py:120-195 | one event, a checkout included: a user with one active subscription goes on following it exactly when the event is not a checkout that moves them to another customer |
| Billing.WebhooksConverge | app/services/billing.py:120-195 | on the whole table, once the active subscription is synced, later events of any kind, about any user, in any order and repeated, leave the user mirroring what was last fetched of it, as long as it alone is active and no checkout moves the user |
| Billing.FollowsIffNeverMoved | app/services/billing.py:120-195 | over a run, the user follows it all along exactly when no checkout moves them |
| Billing.MovedSeesNothing | app/services/billing.py:120-195 | a user with another customer than a subscription's is not touched by its events |
| Billing.CheckoutLosesRenewals | app/services/billing.py:159-195 | a checkout with another customer and a canceled subscription, after which a renewal of the active one is not mirrored |
| Billing.OnlyActiveEventsTakeOver | app/services/billing.py:120-156 | an event for another subscription takes over only when that one is active |
| Billing.TwoActiveFlap | app/services/billing.py:120-156 | with two active subscriptions each event takes over from the other, so one active subscription has to be assumed |
| Billing.ReplayChangesNothing | app/services/billing.py:175-195 | handling any event again, a checkout included, changes nothing on the whole table |
| CompanyLogos.Registry.EvictSharedSiteHost | app/services/company_logos.py:226-237 | every site_host claim on the domain becomes shared and loses its automatic logo, and nothing else changes |
| CompanyLogos.Registry.TryCandidate | app/services/company_logos.py:273-293 | one candidate: outranked, unusable, shared, confirmed, tied or taken, and whether it settles the matter |
| CompanyLogos.Registry.ResolveCompany | app/services/company_logos.py:254-298 | a scan's candidates are taken in turn until one settles the company's domain |
| CompanyLogos.TryReads | app/services/company_logos.py:272-293 | one candidate decided in the rows' own columns: who outranks whom, when two other companies make a domain shared and who loses it, and whose logo is forgotten |
| CompanyLogos.ScanTriesInOrder | app/services/company_logos.py:270-293 | a scan tries the JSON-LD organisation and then the hosts in order, until one settles it |
| CompanyLogos.EditReads | app/services/company_logos.py:301-310 | what an admin's edit leaves of the domain, its source and the logo |
| CompanyLogos.Registry.SetManualDomain | app/services/company_logos.py:301-310 | an admin's domain replaces the old one and its logo, or an invalid one changes nothing |
| CompanyLogos.Registry.SetManualLogo | app/services/company_logos.py:572-579 | an admin's logo is pinned |
| CompanyLogos.Registry.ClearManualLogo | app/services/company_logos.py:582-587 | the pinned logo is dropped and the company is never-tried |
| CompanyLogos.Registry.SyncCompanyLogos | app/services/company_logos.py:469-490 | each looked-up company gets its outcome and no other company changes |
| CompanyLogos.ApplyInv | app/services/company_logos.py:180-310 | every scan, edit and sync keeps claims within the limit and automatic logos with their domain |
| CompanyLogos.ClaimsAndLogosHold | app/services/company_logos.py:180-490 | after any of them, at most two companies hold a site_host or shared claim on a domain, and an automatic logo is always the current usable domain's |
| CompanyLogos.StepBecomes | app/services/company_logos.py:254-310 | without an admin's edit a manual domain stays, rank falls only by eviction, and a pinned logo stays |
| CompanyLogos.ScanBecomes | app/services/company_logos.py:254-298 | a scan of one company changes another only by evicting its shared host |
| Coverage.Monitor.UpdateCoverage | app/services/coverage_monitor.py:25-59 | one reading's effect on all five columns |
| Coverage.BuildUpIsTheMean | app/services/coverage_monitor.py:36-42 | during the build-up the baseline is the exact mean of the counts |
| Coverage.BaselineIsSmoothedFed | app/services/coverage_monitor.py:36-59 | the baseline is the smoothed mean of the counts that were not low, and low ones leave no trace |
| Coverage.LowIsBelowHalf | app/services/coverage_monitor.py:46-50 | a reading is low exactly when five came before it and it is less than half of the smoothed mean of those that were not low |
| Coverage.BaselineBetween | app/services/coverage_monitor.py:36-59 | it stays between the least and the greatest count that fed it |
| Coverage.FlaggedIffSustained | app/services/coverage_monitor.py:46-58 | the streak is the length of the run of low readings, and the flag carries the time of the third of them |
| Coverage.FlaggedIffLastThreeLow | app/services/coverage_monitor.py:46-58 | the flag is up exactly when the last three readings were low |
| Coverage.DropIsNotForgotten | app/services/coverage_monitor.py:49-55 | a lasting drop keeps the baseline frozen and the flag up, however long it lasts |
| CrawlSchedule.IntervalInRange | app/services/crawl_schedule.py:37-44 | every crawl leaves the interval in range from any value; new jobs never lengthen it, none never shortens it, a failed listing keeps it |
| CrawlSchedule.NextExactly | app/services/crawl_schedule.py:37-44 | the next interval, exactly: the nearest minute to half of it, one and a half of it or itself, within the limits |
| CrawlSchedule.BusyReachesLeast | app/services/crawl_schedule.py:37-44 | enough busy crawls reach the minimum despite half-to-even rounding |
| CrawlSchedule.QuietReachesMost | app/services/crawl_schedule.py:37-44 | enough quiet crawls reach the maximum |
| CrawlSchedule.DefaultsConverge | app/core/config.py:91-99 | with the default range six busy crawls or nine quiet ones are enough from anywhere |
| CrawlSchedule.OnlyZeroIsStuck | app/services/crawl_schedule.py:37-44 | a quiet crawl leaves an interval short of the maximum unchanged exactly when it is 0 |
| CrawlSchedule.OneReadADay | app/services/crawl_schedule.py:53-73 | two due reads twenty hours apart fall on different Eastern days |
| CrawlSchedule.DueExactly | app/services/crawl_schedule.py:47-73 | a full read is due exactly from the source's minute between eight and eight on, twenty hours after the last |
| CrawlWorker.Source.ScheduleNextCrawl | app/services/crawl_schedule.py:76-79 | the new interval and the next due time |
| CrawlWorker.Source.CrawlSource | crawl_worker.py:57-140 | what one crawl writes on the row, by listing, registration and row outcome, and whether it was healthy |
| CrawlWorker.OneFullReadADay | crawl_worker.py:63-124 | over any run completed full reads are twenty hours apart and at most one a day |
| CrawlWorker.FullReadExactly | crawl_worker.py:63-124 | which crawls of a run read the whole board, exactly: a listing that came back, the board switched to uncapped and able to be, from its minute on, and no full read in the twenty hours before |
| CrawlWorker.CoverageSeesCappedOnly | crawl_worker.py:130-134 | the coverage monitor has seen the capped crawls and nothing else |
| CrawlWorker.HealthyIsNotLow | crawl_worker.py:135-140 | a crawl that may close jobs registered everything it listed, and the last capped reading was not low |
| CrawlWorker.IntervalStaysInRange | crawl_worker.py:125-128 | from the first recorded crawl on the interval is in range |
| CrawlWorker.DueAroundTheInterval | app/services/crawl_schedule.py:76-79 | the next crawl is due a tenth more or less than the interval later, and the claim is released |
| CrawlWorker.BaselineSetOnce | crawl_worker.py:115-119 | the uncapped baseline needs a full read and never changes once set |

## Left out

- `start_auto_score` and the status pages: starting and showing a run only.
- Two deliveries of one run at once: full mutual exclusion is not promised by the code, between one stage's result commit and the next status commit.
- `resolve_llm_credentials`: the request meter of `RequestMeters` without the free restructures.
- `active_source` and the other readers for the user interface: they read the meters that are modelled.
- `reevaluate_one`: the same scoring of one collection, with its duplicates left as they were.
- The Google demand figures and search totals: discovery takes each key's figure as given, and scores have no demand component yet.
- The wording of reasons and errors, and the details stored with an event.
- `main` of `one_off/redo_dedup.py`: batching by company, samples and counters around `regroup`.
- Text heuristics: company and title normalization, `registrable_domain`, `domain_named` and the gazetteer's location resolution.
- Storing and serving logo images, the name search and the lookups' timing: a lookup is its outcome.
- Checkout and portal sessions, Stripe's signature check, token hashing and token expiry clean-up.
- Scan lanes, closing of jobs that left a board, and everything published to a queue.
- Concurrency of scans and logo syncs with each other: each runs alone, one after another.
- Floating-point rounding of scores, baselines and medians before `round`.
