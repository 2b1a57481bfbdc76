# Verification of the code-analysis report pipeline

The repository turns the raw output of many scanners into one current, immutable report per project.
This project models the parts of that path whose correctness is decided by code, and proves what they promise.

- **Evidence** (`Identity`, `Canonical`, `CanonicalTheorems`, `Drift`, `Compare`): raw findings are grouped, hashed into
  identities and split into observations; two runs are compared.
- **Accounting** (`Accounting`, `ChannelInventory`, `Paging`, `Hosted`, `Bundle`, `Pipeline`): observations are assigned to
  catalog channels, findings are paged into documents, and an independent consumer checks them again.
- **Merge** (`Merge`, `MergeFindings`, `MergeTheorems`, `MergeAccounts`, `MergeRuns`, `MergeDocuments`, `MergeCounterexample`):
  successful scanner lanes are spliced into an existing report of the same revision.
- **Shards and publication** (`Shard`, `ShardTheorems`, `Publication`, `PublicationTheorems`, `PublicationRuns`, `RecentRuns`,
  `PublishedReports`): documents are packed into content-addressed assets, uploaded, committed by one manifest, and cleaned up,
  with a possible interruption at every storage call. `PublishedReports` puts accounting, merge, shards and publication together.
- **Scheduling** (`Scanners`, `Plan`, `Selection`, `SelectionTheorems`, `Exclusions`, `Scan`): what is run, what is reused, and when a run is dispatched.
- **Client** (`FindingIndex`, `Registry`, `OrderedMap`, `ReportCache`, `Forms`, `Routes`, `RouteTheorems`): the finding index, the
  generation-guarded caches, and the routes. The query part of a route follows sections 5.1 and 5.2 of the WHATWG URL Standard.

`Sequences`, `Ordering`, `Grouping` and `Text` hold the general definitions that these modules share.

Code that changes something step by step is a method or a class, proved against a specification function or predicate; the theorems
are lemmas about that specification. `ReportPublication`, the coordinator's `RunScan`, the registry `Cache` and the client's `Reports`
are state machines. To verify: `dafny verify dfyconfig.toml`.

What the libraries do is a parameter with stated laws, never an axiom: SHA-256 is injective and its hexadecimal text has no NUL; NFC
is idempotent, leaves ASCII alone and does not compose across NUL, across an anchor's tag or across a slash; the sorted JSON text of a
record determines the record; `SequenceMatcher.ratio` lies between 0 and 1; decompression undoes compression, whose sizes follow no
law; UTF-8 decoding undoes encoding. Raw fields are assumed to hold no NUL. `LawsWitness` gives a concrete model of these
library laws, so they do not contradict each other. `PublishedReports` assumes further laws of the tools that read and derive reports,
for which no model is given. The theorems about publication assume that a coordinator row carries no report of its own
(`Publication.Bare`): documents, assets and bundle of an entry come from the published manifest or from this run's collection.

## Where the code differs from what one would expect

Each of these has a lemma with a failing input and a lemma that says exactly when the property holds.

- Two groups can share a stable id: a file of `./` is cleaned to the empty text, which hashes like a missing file
  (`CanonicalTheorems.EmptyPathClashes`; exactly when: `Identity.SharedStableIdExact`, `CanonicalTheorems.EvidenceValidExact`).
- A merge of two accounted reports need not be accounted for: an incoming finding may drag in evidence of a selected but partial lane
  (`MergeCounterexample.MixedFindingBreaksAccounting`; exactly when: `MergeAccounts.MergeAccountsExact`).
- A target can be dispatched again under the same analysis key without a refresh or lost evidence: the base revision is no part of the
  key, but a change of it resets the row (`Scan.BaseChangeIsDue`; exactly when: `Scan.DueExactly`; what must have happened between two dispatches: `Scan.DispatchesHaveCause`,
  and between a saved request and a dispatch: `Scan.SavedHaveCause`).
- Evidence reuse can leave a plan that splits a shared producer, if the request did (`SelectionTheorems.SplitRequestRejected`; exactly
  when: `Plan.ExecutionClosedExact`).
- A failing shard request forgets whatever request its key holds, also a newer one (`ReportCache.FailureForgetsNewerShard`; exactly
  when: the contract of `ReportCache.Reports.FailShard`).
- A run's valid entries are appended to the history newest first and the history keeps its last ten, so the newest is the first to go
  (`RecentRuns.NewestIsCut`; exactly when: `RecentRuns.NewestIsKeptExactly`, for any record `RecentRuns.KeptExactly`).

## Model

| member | source | states |
|---|---|---|
| Identity.StableIdExact | scripts/code_analysis/monitoring.py:79-92 | two records get one stable id if and only if every hashed part of their identities agrees, although the joined tuple is unframed and anchors contain NULs |
| Identity.SharedStableIdExact | scripts/code_analysis/monitoring.py:35-101 | records of different groups share a stable id exactly when an empty cleaned path meets a missing one |
| Canonical.Canonicalize | scripts/code_analysis/monitoring.py:137-227 | the loops yield the findings and observations that the group order, the row order and the occurrence numbering determine |
| Canonical.NumberGroup | scripts/code_analysis/monitoring.py:162-194 | occurrence suffixes number equal base ids in row order |
| CanonicalTheorems.OrderIndependent | scripts/code_analysis/monitoring.py:148-219 | any permutation of the raw findings gives the same findings and observations, suffixed ids included |
| CanonicalTheorems.RawFindingsConserved | scripts/code_analysis/monitoring.py:148-219 | the observations' records are the raw findings, each as often as it came |
| CanonicalTheorems.FindingsReconcile | scripts/code_analysis/monitoring.py:195-219 | the findings' observation ids, one after another, are the observations' ids: the reconciliation error is unreachable |
| CanonicalTheorems.ObservationIdsDistinct | scripts/code_analysis/monitoring.py:109-118 | all observation ids are distinct, identical records included |
| CanonicalTheorems.EvidenceValidExact | scripts/code_analysis/monitoring.py:293-302 | the evidence has valid, distinct finding ids exactly when no two records that lead different groups have clashing paths |
| CanonicalTheorems.ClashingPair | scripts/code_analysis/monitoring.py:35-37 | in any run, two leading records of different groups with clashing paths make the evidence invalid |
| CanonicalTheorems.NoEmptyPathIsValid | scripts/code_analysis/monitoring.py:35-37 | a run in which no file is cleaned to the empty path has valid evidence |
| CanonicalTheorems.EmptyPathClashes | scripts/code_analysis/monitoring.py:35-37 | a record whose file is `./` beside one without a file is such a pair |
| Drift.StrongMatches | scripts/code_analysis/monitoring.py:342-368 | the result maps exactly the mutual-best pairs that no second candidate comes near |
| Drift.AcceptsExact | scripts/code_analysis/monitoring.py:353-368 | the loop's threshold and margin tests mean that the pair is each side's best and the old finding's only candidate |
| Drift.AcceptedIsAlone | scripts/code_analysis/monitoring.py:353-368 | scores of at least 0.90 and a margin of 0.15 leave room for one candidate only |
| Drift.GuardIsImplied | scripts/code_analysis/monitoring.py:360-367 | the used-id guard is implied by the mutual-best test |
| Drift.MatchingInjective | scripts/code_analysis/monitoring.py:342-368 | no new finding continues two old ones |
| Drift.MatchingOrderIndependent | scripts/code_analysis/monitoring.py:342-368 | the matching is the same for every order of both runs |
| Compare.Compare | scripts/code_analysis/monitoring.py:371-437 | every baseline id and every current id is accounted for exactly once, row ids are distinct, every row's lifecycle is explained, and the conservation failure is unreachable |
| Compare.EveryBaselineRowCounted | scripts/code_analysis/monitoring.py:424-434 | the counted rows are as many as the baseline's findings whenever the rows conserve |
| Accounting.ValidateSnapshot | scripts/code_analysis/dashboard.py:25-71 | the accounting checks succeed exactly when channel counts, identities, the partition of observations and the totals hold |
| ChannelInventory.BuildAnalysisChannels | scripts/code_analysis/snapshot.py:25-94 | refuses a catalog exactly when it is empty or names a channel twice or not at all, and otherwise builds the rows that the catalog determines |
| ChannelInventory.ChannelsPartitionExact | scripts/code_analysis/snapshot.py:50-86 | the channel rows partition the observations exactly when every observed family belongs to one channel |
| Hosted.MakeIndex | scripts/code_analysis/hosted.py:123-168 | rows and details of all findings, or an error exactly for a repeated finding or an unknown observation |
| Hosted.Build | scripts/code_analysis/hosted.py:94-175 | of the checks on channels, observations and findings: succeeds exactly when channels are accounted, observations and findings distinct and origins known |
| Bundle.ValidateBundle | scripts/code_analysis/github_service.py:380-394 | the consumer accepts exactly the documents whose index, detail pages and channels agree |
| Bundle.PackAcceptedExact | scripts/code_analysis/github_service.py:380-394 | packed documents are accepted, in any listing order of the pages, exactly when counts and origins reconcile |
| Bundle.LocatorsLeadHome | scripts/code_analysis/workspace_documents.py:9-53 | every finding is found through its locator bucket, on the page named there and only there |
| Bundle.FindingPagesAreIndex | scripts/code_analysis/workspace_documents.py:15-53 | the finding pages are numbered from zero and concatenate to the index |
| Pipeline.MakeSnapshot | scripts/code_analysis/monitoring.py:230-290 | of the checks on findings, catalog and reconciliation: builds the snapshot exactly when they hold |
| Pipeline.ProducedSnapshotAccounts | scripts/code_analysis/snapshot.py:50-112 | a produced snapshot satisfies the whole accounting invariant |
| Pipeline.AccountedBundleAccepted | scripts/code_analysis/hosted.py:123-175 | documents built from an accounted snapshot pass every check of the consumer |
| Pipeline.Produce | scripts/code_analysis/github_service.py:380-394 | from raw findings to documents: of these checks, all succeed exactly when the catalog is valid, no leading paths clash and each family has one channel, and then the consumer accepts |
| Merge.MergedKeysFacts | scripts/code_analysis/repository_service.py:221-226 | the merged dictionary holds each id once: the ids kept from either side |
| MergeDocuments.MergeLaneFindings | scripts/code_analysis/repository_service.py:228-249 | the loops trim old findings, drop empty ones and absorb incoming ones by id |
| MergeDocuments.MergeChannelDocuments | scripts/code_analysis/repository_service.py:196-321 | succeeds exactly when a selected lane completed and every merged finding has a detail, with index, pages and locators rebuilt from the merged snapshot |
| MergeRuns.SiblingsKept | scripts/code_analysis/repository_service.py:207-226 | an observation is in the merge exactly when it is an old one of a kept lane or an incoming one of a replaced lane |
| MergeAccounts.MergeAccountsExact | scripts/code_analysis/repository_service.py:207-278 | the merge of accounted reports is accounted for exactly when strangers bring nothing and no incoming finding drags in another lane's evidence |
| MergeCounterexample.MixedFindingBreaksAccounting | scripts/code_analysis/repository_service.py:228-249 | two accounted reports of the same two lanes, both selected, the incoming one partial in one lane and with new observation ids; their merge names an observation that it does not hold |
| MergeRuns.MergeIdempotent | scripts/code_analysis/repository_service.py:207-273 | merging the same report again changes no observation, no channel row and no finding's observations |
| MergeRuns.EveryRunAccounts | scripts/code_analysis/repository_service.py:207-278 | the invariant holds after every sequence of admissible merges |
| MergeDocuments.MergeKeepsSound | scripts/code_analysis/repository_service.py:284-321 | a merge of sound reports succeeds and its rebuilt documents are accepted by the consumer |
| MergeDocuments.BuiltReportSound | scripts/code_analysis/hosted.py:94-175 | a report built by the producer is sound |
| Shard.Emit | scripts/code_analysis/report_assets.py:39-51 | the recursive halving terminates, fills both dictionaries piece by piece, and never meets a single document that is too big |
| Shard.Shard | scripts/code_analysis/report_assets.py:32-76 | succeeds exactly on deliverable documents; the pieces concatenate to the sorted documents and each is within its bounds |
| ShardTheorems.ShardRoundTrip | scripts/code_analysis/report_assets.py:32-87 | every document is found unchanged in exactly the asset the manifest names, and every asset verifies and holds nothing else |
| ShardTheorems.ShardBounds | scripts/code_analysis/report_assets.py:53-72 | every asset is within the limit and an isolated document is alone in its asset |
| ShardTheorems.NamesDistinct | scripts/code_analysis/report_assets.py:48-51 | different pieces never share an asset name |
| Publication.LoadReportDocuments | scripts/code_analysis/repository_service.py:188-193 | reads the assets one by one and fails on the first that is absent or does not verify |
| PublicationTheorems.LoadRecovers | scripts/code_analysis/repository_service.py:188-193 | a stored report loads as the documents it was made of, whatever the order of the assets |
| Publication.Enter | scripts/code_analysis/repository_service.py:410-513 | a row's entry: carried over, failed, an overlay, or a fresh or merged report with its shards and audit bundle |
| Publication.ReportPublication | scripts/code_analysis/repository_service.py:370-621 | uploads, then the manifest, then deletions, up to an interruption; the manifest is the chosen one or untouched |
| PublicationRuns.EveryMomentSound | scripts/code_analysis/repository_service.py:579-621 | after every storage call of a run, whatever the stored manifest refers to is stored and reads back |
| PublicationRuns.HistorySound | scripts/code_analysis/repository_service.py:370-621 | so it is after every sequence of runs, interrupted ones and refused deletions included |
| PublicationRuns.HistoryMomentSound | scripts/code_analysis/repository_service.py:579-621 | and at every moment inside every run of such a sequence |
| PublicationRuns.StepFollows | scripts/code_analysis/repository_service.py:515-556 | a run leaves the manifest, keeps the previous report's documents, assets and bundle, or shows one collected in this run at the target's revision |
| PublicationRuns.NeverLost | scripts/code_analysis/repository_service.py:372-381 | once a report is published, every later state has exactly one current target, with the current id, and it loads |
| PublicationRuns.ChoiceExact | scripts/code_analysis/repository_service.py:515-545 | an entry answering the last request wins, else none is newer than the chosen one, and the shown report is retained exactly when nothing is valid |
| PublicationRuns.NoLeftovers | scripts/code_analysis/repository_service.py:613-621 | a run that comes to its end leaves storage holding exactly the names that its manifest refers to |
| PublishedReports.ShownReportIsSound | scripts/code_analysis/repository_service.py:370-621 | in every reachable state the report on show loads, accounts for its observations and is accepted by the consumer |
| RecentRuns.TrimRuns | scripts/code_analysis/repository_service.py:569-578 | the history is the latest record of every identified run, cut to the last ten |
| RecentRuns.TrimmedExact | scripts/code_analysis/repository_service.py:569-578 | kept runs are distinct and identified, ten at most, and trimming again changes nothing |
| RecentRuns.LastIsKept | scripts/code_analysis/repository_service.py:569-577 | the last record of every identified run survives the deduplication |
| RecentRuns.KeptExactly | scripts/code_analysis/repository_service.py:569-578 | any record stays exactly when some place of it is identified, the last of its identity, and followed by fewer than ten kept ones |
| RecentRuns.NewestIsKeptExactly | scripts/code_analysis/repository_service.py:558-578 | a run's newest entry stays in the history exactly when some place of it among the run's entries is kept; if no entry repeats it, exactly when it is identified, the last of its identity, and one of at most ten kept entries |
| RecentRuns.NewestIsCut | scripts/code_analysis/repository_service.py:558-578 | with eleven entries the newest one is dropped |
| Plan.ChannelExecutionPlan | scripts/code_analysis/repository_service.py:68-77 | one pass over the groups leaves for reuse exactly the reusable channels whose whole requested group is reusable, both lists in request order |
| Plan.PlanIsLargest | scripts/code_analysis/repository_service.py:68-77 | the parts are disjoint and cover the request, and the reused part contains every reusable set that splits no group |
| Plan.ExecutionClosedExact | scripts/code_analysis/applicability.py:72-74 | what runs splits no shared producer exactly when every producer that the request splits has only reusable channels in the request |
| Plan.ChannelLanes | scripts/code_analysis/repository_service.py:80-90 | one lane for each producer in order of first mention, holding its channels in request order |
| Plan.ConcurrentPermutes | scripts/code_analysis/repository_service.py:93-95 | the schedule is a permutation of the channels, repetitions included |
| Plan.ConcurrentIdempotent | scripts/code_analysis/repository_service.py:80-95 | scheduling a schedule changes nothing, and its lanes are the same |
| Scanners.OneProducer | scripts/code_analysis/applicability.py:31-48 | no channel has two producers |
| Selection.PortableAbsent | scripts/code_analysis/applicability.py:82-102 | a portable profile's absent jobs are exactly those that lack support, a generator or a source, each with a reason |
| Selection.FullAbsent | scripts/code_analysis/applicability.py:103-125 | a full profile's absent jobs are exactly those whose sources, Dockerfiles or manifests are missing |
| Selection.Select | scripts/code_analysis/applicability.py:57-159 | succeeds exactly on an acceptable configuration, request and tree, with the jobs in table and registry order and the languages of the configured roots |
| SelectionTheorems.EveryChannelAccounted | scripts/code_analysis/applicability.py:126-159 | every known channel is selected or excluded with a status and a reason; both happens for one channel, exactly when the tree has no workflows |
| Exclusions.Apply | scripts/code_analysis/applicability.py:162-169 | writes the exclusions into the channel rows, or fails exactly when an excluded scanner produced observations |
| Exclusions.ApplyKeepsAccounts | scripts/code_analysis/applicability.py:162-169 | the excluded snapshot is accounted for, and every channel lists what it listed |
| Exclusions.ApplyTwice | scripts/code_analysis/applicability.py:162-169 | applied exclusions can be applied again, and change nothing |
| Exclusions.OwnExclusionsApply | scripts/code_analysis/applicability.py:57-169 | applying a selection's own exclusions to a snapshot of known channels succeeds exactly when only channels selected to run list observations; the workflow scanner also needs workflows |
| Exclusions.OwnExclusionsMark | scripts/code_analysis/applicability.py:57-169 | afterwards the row of every channel that did not run is empty, with its exclusion's status and a reason, and every other row is untouched |
| SelectionTheorems.PlanNeverRejected | scripts/code_analysis/applicability.py:57-74 | what is left to run of an acceptable request is itself acceptable |
| SelectionTheorems.SplitRequestRejected | scripts/code_analysis/applicability.py:72-74 | a request that splits a producer, with evidence for another channel, leaves a plan that is rejected |
| Scan.Coordinator.RunScan | scripts/code_analysis/github_service.py:269-362 | records one scan whose every event follows from the saved rows, the discovery, the refresh and the observed runs; a scan that ends leaves exactly the discovered targets, each with its current key and a request or evidence |
| Scan.Coordinator.DispatchRow | scripts/code_analysis/github_service.py:347-358 | saves the intent right before it is dispatched, and makes one call |
| Scan.DispatchesSeparated | scripts/code_analysis/github_service.py:299-359 | between two dispatches for one target, some recorded event ended the first request |
| Scan.DispatchesHaveCause | scripts/code_analysis/github_service.py:269-362 | between two dispatches for one target there is a later scan that was asked to refresh it, saw the run of its saved request complete without usable evidence, did not discover it, or discovered it with other revisions or another key; without the last two, one of the first two |
| Scan.OpenIsNotRepeated | scripts/code_analysis/github_service.py:315-358 | a target with a saved request is not dispatched by a scan that gives none of these causes, whether its call was made, failed, or was cut off before it |
| Scan.OpenIsSaved | scripts/code_analysis/github_service.py:347-359 | a dispatched request that no event has ended is among the saved requests that the next scan starts from |
| Scan.SavedHaveCause | scripts/code_analysis/github_service.py:269-362 | between any saved state that holds a request and a later dispatch for its target, some scan gave one of these causes |
| Scan.DispatchedOnceAfterSaving | scripts/code_analysis/github_service.py:347-358 | every dispatched request was saved before, and is dispatched once |
| Scan.UncertainIsKept | scripts/code_analysis/github_service.py:336-338 | a request whose run is not listed is left as it is |
| Scan.DueExactly | scripts/code_analysis/github_service.py:299-338 | a known target is up for dispatch exactly when it has no request, its key or revisions changed, or its run's evidence is lost |
| Scan.BaseChangeIsDue | scripts/code_analysis/hosted.py:61-79 | a change of the base revision alone makes a target due again under the same key |
| FindingIndex.LabelsExact | analysis-ui/src/findingIndex.ts:13-19 | a row is filed under a family's value exactly when a linear test for the value holds |
| FindingIndex.BuildFindingIndex | analysis-ui/src/findingIndex.ts:8-23 | every family's value lists the matching positions in order, search texts are in place, and ids lead to their last row |
| FindingIndex.FilterFindingIndex | analysis-ui/src/findingIndex.ts:25-35 | no position twice, exactly the rows that a linear scan keeps, ordered by the first matching value of the first active filter and then by position |
| FindingIndex.FilteredIsScan | analysis-ui/src/findingIndex.ts:26-35 | such positions are a rearrangement of the linear scan's |
| Registry.Cache.GetProjectRegistry | analysis-ui/src/projectRegistry.ts:21-30 | answers with a fresh value of the session, joins the pending request of an unchanged session, and starts one only when none is pending; at most one request is pending per generation |
| Registry.Cache.Respond | analysis-ui/src/projectRegistry.ts:26-27 | a response of an older generation or another session never becomes the value |
| Registry.Cache.Finish | analysis-ui/src/projectRegistry.ts:26-27 | a settled request forgets itself and never a newer one |
| Registry.PrepareCounts | analysis-ui/src/projectRegistry.ts:34-38 | marking a project keeps the summary's three counters equal to the projects they count |
| Registry.PrepareIdempotent | analysis-ui/src/projectRegistry.ts:34-38 | marking twice is marking once |
| ReportCache.Reports.StoreManifest | analysis-ui/src/repositoryReports.ts:51-51 | a manifest is cached only in the generation and session it was asked in; only the oldest of a full cache may go for it |
| ReportCache.Reports.AskManifest | analysis-ui/src/repositoryReports.ts:43-50 | a recent manifest is reused, a pending request is joined, and one is sent only when none is pending for the key in the generation |
| ReportCache.Reports.SettleManifest | analysis-ui/src/repositoryReports.ts:49-49 | a settled manifest request forgets itself and no other |
| ReportCache.Reports.AskShard | analysis-ui/src/repositoryReports.ts:64-74 | a cached shard is joined, a new one is asked in the current generation and session; only the oldest of four may go for it |
| ReportCache.Reports.FailShard | analysis-ui/src/repositoryReports.ts:72-72 | a failure forgets a newer request exactly when the key holds another request |
| ReportCache.FailureForgetsNewerShard | analysis-ui/src/repositoryReports.ts:72-72 | a failure from before a refresh makes the next read ask again |
| ReportCache.PutEvicts | analysis-ui/src/repositoryReports.ts:51-73 | a bounded map keeps what was just put and everything else, except the oldest entry when it was full and the key is new |
| Forms.FormRoundTrip | analysis-ui/src/appRoutes.ts:41-45 | any list of name and value pairs is recovered from its query text, in order |
| RouteTheorems.RouteRoundTrip | analysis-ui/src/appRoutes.ts:19-46 | parsing a printed route gives its normal form |
| RouteTheorems.ParsedIsNormal | analysis-ui/src/appRoutes.ts:19-37 | every parsed route is in normal form and names its project by a number |
| RouteTheorems.HashStable | analysis-ui/src/appRoutes.ts:19-46 | printing a parsed route and parsing again gives the same route |

## Left out

- Network, GitHub, object storage, zip and gzip internals, clocks and file walking: they are parameters, oracles or single steps.
- Scanner parsers, normalization of records, triage, gate evidence of other vendors, and the native override in `validate_snapshot`: the model starts from raw finding records.
- Source excerpts, links, and the withholding of messages that may hold a secret: they do not enter any identity, count or reference.
- Categories, messages, timestamps, sizes in metrics, and the wording of reasons and errors: only that a reason is not blank is kept.
- Whitespace in `Text.Strip` covers ASCII and the Latin-1 separators; other Unicode whitespace is not modelled there.
- The order in which dictionaries list gate ids, moved findings and referenced names: sorted, or any order where the proof allows it.
- Canonical.Canonicalize: the validation of the channel manifest and the construction of the family-to-channel map are an input.
- Compare.Compare: triage status and analysis change flags of the rows.
- Accounting.ValidateSnapshot: the refusals on schema, publishability, channel class, name, status and `findings` count, and on the publication gate.
- ChannelInventory.BuildAnalysisChannels: the refusals of unknown classes and of gate rows outside the catalog; how a row's status and reason are derived is a parameter.
- Hosted.Build: the refusals when revision, repository, producer repository or run ids do not fit the target.
- Pipeline.MakeSnapshot: the refusals on missing channel status, incomplete required channels, and provenance that is missing, malformed or of another commit.
- Pipeline.Produce: with these refusals of its parts left out, and it demands NUL-free fields and the laws of the hash, which the unframed tuples need.
- MergeDocuments.MergeChannelDocuments: demands distinct channel, observation and finding ids within each report; the merge itself would let the last of two equal ids win, but both reports have passed checks that refuse repeated ids.
- MergeAccounts.MergeAccountsExact: takes as given that an observation id determines its family, a family its channel and a stable id its lane, which hashing and the catalog provide.
- PublishedReports.ShownReportIsSound: takes as given how a report set is read out of documents, and that derived documents do not disturb it; the JSON text is not modelled.
- Publication.Enter: the audit bundle and derived documents are functions of the report, whose errors are not modelled; errors of a storage read count as a failed collection; the recovery of expired evidence changes coordinator rows only.
- Publication.ReportPublication: request rows, metrics and storage history of the manifest are left out; blobs uploaded by an interrupted run stay behind, as in the code.
- The coordinator's own changes to a row after failed evidence, and `reconcile_repository` around publication.
- RecentRuns.TrimRuns: how the records are projected from entries is left out; a run's overlays follow its valid entries in the list.
- Selection.Select: of the extension registry only unique names and nonblank deferrals are modelled; the profile's own validation is assumed.
- Selection.FullAbsent: roots and manifests are given as texts, an absent optional one as the empty text.
- Exclusions.Apply: the `findings` count, which is cleared, and the artifact list of a channel row are not modelled.
- Scan.Coordinator.RunScan: a refresh names its target by id; labels, pull-request numbers and the manual target are resolved before, and discovery lists no id twice.
- FindingIndex.FilterFindingIndex: lower-casing and trimming are parameters.
- Registry.Cache.GetProjectRegistry: promises are numbers, and what they resolve to is an input of the step that delivers it.
- ReportCache.Reports.AskShard: hashing and decompression of the response are left out; a failed check is a failed request.
- RouteTheorems.RouteRoundTrip: a project id must be a number, as the parser demands; filters are printed in the parser's field order, and a legacy section that names a built-in object property is not modelled.
- Concurrent scans or publications: the repository serializes them.
- React components, PDF rendering, styling, sign-in, and workflow generation.
