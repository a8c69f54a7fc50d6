# Verified core of the Enveo budget

This project models the money and import logic of Enveo, an envelope-budgeting program, and proves
what that logic promises. Ids, money and months are integers, collections are sequences, sets and
maps, and everything the program gets from outside (text rules, similarity scores, calendars, model
answers, the clock) is a parameter. Where the source changes things step by step the model does so
too: the searches, the duplicate index, the report loops, the import windows, the date inference, the
closure walks and the budget proposals are methods with loops or classes with fields, proved against
the functions the lemmas are about.

- `Ledger`, `WellFormedLedger`, `LedgerRows`: the reducer that applies sync operations to the local
  ledger, and what each operation leaves in it, row by row and field by field.
- `TableReplay`, `ReplayPast`, `ReplayRel`, `ReplayDictionaries`, `ReplayGroups`, `Replay`: replaying a
  pending outbox over a fresh snapshot, for whole histories of every kind of operation.
- `ReplayLimits`, `ReplayEntries`, `ReplayWitnesses`: short histories that break a side condition of
  `Replay`, when they replay all the same, and ledgers on which they do not.
- `Budget`, `BudgetEffects`, `BudgetIdentity`, `BudgetRuns`: the budget state of a month, what each
  transaction and allocation does to every figure of it, and the identity between available money,
  money to be budgeted and balances over whole runs of operations.
- `BalanceMatch`, `NearestMatch`, `BalanceChoices`: the two backtracking searches that reconcile a
  balance, and what they find among all choices a user could make.
- `ImportRows`, `ImportWindows`, `ImportChunks`, `ImportExtraction`, `ImportScreens`, `InferDates`,
  `InferDatesLoops`, `ImportDedupe`, `ImportRecognition`, `ImportReconcile`, `ImportHistory`,
  `ImportJobs`: the screenshot import, from overlapping windows to the reviewed proposals, and the job
  that drives it.
- `ScreenVotes`, `InferTwins`, `InferAnchors`, `InferMeaning`, `ExtractionMeaning`, `ReconcileMeaning`,
  `HistoryMeaning`: what these steps make of every row and proposal, in terms of their inputs alone.
- `SpendingReports`, `SpendingExplorer`, `SpendingBreakdown`, `ReportsMeaning`, `ExplorerMeaning`: the
  reports, the explorer that must agree with them, and what both count and list, in terms of the
  transactions.
- `SignupGate`, `RuntimeClosure`, `WebBundle`, `ReleaseVersion`, `BudgetSuggest`, `SuggestMeaning`: the
  first-signup protocol, the two reachability walks, release ordering, and the apportionment of a pool.
- `Sequences`, `Sorting`, `Tables`, `KeyedTotals`, `Reachability`, `Decimals`: shared definitions.

## Operations

Each operation of the source that loops or updates is a method whose postcondition equates its result
with the function its theorems speak of:

- `BalanceMatch.FindBalanceMatches` with `BalanceChoices.MatchesExplain`,
  `NearestMatch.FindNearestBalanceMatch` with `BalanceChoices.NearestExplains`
- `Budget.ComputeBudgetState` and `Budget.UnassignedMoney` with `BudgetEffects.TransactionShows`,
  `AllocationShows`, `NothingShown` and `IdentityUpToGap`,
  `BudgetRuns.AutomaticAllocatedForEnvelopeMonth` with `DisplayedTotalRoundTrip`
- `ImportReconcile.ReconcileImportProposals` with `ReconcileMeaning.ReconcileMeans` and
  `ReimportSelectsNothing`, `ImportRecognition.ValidateImportExtraction` with
  `ExtractionMeaning.ExtractionMeans`, `ImportHistory.SelectImportHistoryCandidates` with
  `HistoryMeaning.HistoryMeans`
- `ImportExtraction.ImportPipelineChunks` and `ExtractAllChunks` with `ResumedImportIsWellMerged`,
  `InferDatesLoops.InferImportDates` with `InferMeaning.InferenceMeans` and `InventsNothing`
- `SpendingReports.ComputeSpendingByDimension` with `EveryDimensionAddsUp` and
  `ReportsMeaning.ReportMeans`, `ComputeCashflowSeries` with `ReportsMeaning.CashflowMeans`,
  `ComputeDailySpending` with `ReportsMeaning.DayMeans`, `ComputeDaySpending` with
  `DayPanelAgrees`, `SpendingExplorer.SpendingEntries` with `ExplorerAgreesWithReport`,
  `SpendingBreakdown.BreakdownEntries`, `MergeByTransaction` and `StatementLines` with the three
  conservation lemmas and `ExplorerMeaning.LevelMeans`, `MergeMeans` and `StatementMeans`
- `BudgetSuggest.SuggestTopUpNegatives` with `SuggestMeaning.TopUpMeans`, `TopUpSpendsPool` and
  `TopUpIsFair`, `SuggestFromPreset` with `SuggestMeaning.PresetMeans`

## Findings

What the code does not keep, and the condition under which it does.

- Replaying an outbox is not idempotent in general, although packages/shared/src/applyOp.ts:16-19 and
  packages/shared/src/applyOp.ts:320-323 say it is. `Replay.ReplayOverSnapshot` proves it for histories
  of every kind of operation under side conditions that can be read off the ledger, the payload and what
  the history did before (`ReplayRel.CausalOp`, `ReplayPast.Lasting`): ids exist before they are used, an
  update is judged alike whatever allocation fields it leaves out, no group is deleted with an envelope
  that the history named and did not create, no entry is merged away that the history named before or
  merged a new entry into, an entry archived by a delete keeps a row that uses it, and nothing names an
  entry that is gone. The conditions are sufficient. For short histories that break those on allocation
  fields, groups, merges and archived entries, if-and-only-ifs over every ledger and every payload say
  when they replay all the same, and a well-formed ledger shows each failing: an update with fields left out and an envelope delete
  (`EnvelopeDeleteReplay`), an update of a transaction or of an account and a group delete
  (`GroupDeleteReplay`, `AccountGroupReplay`), an update and a merge (`PlaceMergeReplay`,
  `CategoryMergeReplay`), an entry delete and an operation that takes its last use away
  (`PlaceDeleteReplay`, `CategoryDeleteReplay`), and a merge into an entry that is merged away itself
  (`ChainedPlacesReplay`, `ChainedCategoriesReplay`).
- The budget identity of packages/shared/src/budget.ts:7-8 fails after a delete that strips part of a
  split, by exactly the stripped amounts (`BudgetRuns.IdentityAfterDelete`, with a witness in
  `StrippingBreaksTheIdentity`), and for a transfer without a target, by its amount. The comment at
  packages/shared/src/ledger.test-support.ts:267-272 is older than packages/shared/src/budget.ts:80-82:
  deleting the envelope of a whole expense keeps the identity.
- The closure walk visits a directory once, for the first package found there, so it is exact on every
  store if and only if no two packages share a directory (`RuntimeClosure.ExactWhenDirsAreSeparate`).
  scripts/prune-runtime-deps.ts:86-87 lays the store out that way.
- The first-signup gate lets a second account in when an account is inserted after its claim expired.
  Inserting within d seconds of the gate's clock keeps every closed install at one account if and only
  if d is at most the claim's lifetime (`SignupGate.DeadlineIsExact`).

## Model

| member | source | states |
|---|---|---|
| Replay.ReplayOverSnapshot | packages/shared/src/applyOp.ts:16-34 | replaying a whole history over a snapshot that absorbed any prefix of it gives exactly the ledger of one clean run, for histories of every kind of operation that meet the side conditions `CausalOp` and `Lasting` step by step; what each operation writes in that run is stated in `LedgerRows` |
| Replay.OrdinaryHistoriesReplay | packages/shared/src/applyOp.ts:201-278 | without merges, entry deletes and deletes of groups that still have envelopes, causality alone is enough |
| Replay.AnyOperationReplays | packages/shared/src/applyOp.ts:16-34 | on every well-formed ledger, any one operation applied again changes nothing, whatever its kind (an entry is not merged into itself, an update is judged alike both times) |
| Replay.AbsorbedHistoryIsStable | packages/shared/src/applyOp.ts:320-323 | a snapshot that absorbed a whole such history, merges included, is not changed by replaying it |
| ReplayPast.StandingStep | packages/shared/src/applyOp.ts:320-363 | along lasting operations no row mentions an entry that is gone, merge targets stay listed, and archived entries keep the rows that use them |
| ReplayLimits.EnvelopeDeleteReplay | packages/shared/src/applyOp.ts:208-278 | for any update and any ledger with distinct ids: an update and an envelope delete replay idempotently if and only if the update was accepted, or stays refused once the envelope is gone, or then changes nothing the delete keeps |
| ReplayLimits.GroupDeleteReplay | packages/shared/src/applyOp.ts:290-295 | an update of a transaction and a group delete replay idempotently if and only if an accepted update names none of the group's envelopes, and a refused one stays refused or changes nothing |
| ReplayLimits.AccountGroupReplay | packages/shared/src/applyOp.ts:249-295 | an update of an account and a group delete replay differently exactly when the account is there and the update links it to an envelope of the group |
| ReplayLimits.PlaceMergeReplay | packages/shared/src/applyOp.ts:320-349 | an update and a place merge replay differently exactly when both places are listed, they differ, and an accepted update names the one merged away |
| ReplayLimits.CategoryMergeReplay | packages/shared/src/applyOp.ts:320-336 | the same for categories, named by the row or by any item of its split |
| ReplayEntries.CategoryDeleteReplay | packages/shared/src/applyOp.ts:346-356 | a category delete followed by an update or delete of a transaction or a delete of an account, an envelope or a group replays differently exactly when the category is listed and used and every row that uses it, itself or through an item, loses it to that operation |
| ReplayEntries.PlaceDeleteReplay | packages/shared/src/applyOp.ts:346-363 | the same for places, read off the rows that name the place and the payload |
| ReplayEntries.ChainedPlacesReplay | packages/shared/src/applyOp.ts:302-349 | a new place merged into a second and that one into a third replays differently exactly when the second and the third are listed |
| ReplayEntries.ChainedCategoriesReplay | packages/shared/src/applyOp.ts:296-336 | the same for categories |
| ReplayWitnesses.EnvelopeDeleteReplayFails | packages/shared/src/applyOp.ts:208-218 | a well-formed ledger and an update, valid by itself and with live references, whose replay turns income into an expense |
| ReplayWitnesses.GroupDeleteReplayFails | packages/shared/src/applyOp.ts:290-295 | such a ledger and update for the group delete |
| ReplayWitnesses.AccountGroupReplayFails | packages/shared/src/applyOp.ts:249-295 | such a ledger and update of an account |
| ReplayWitnesses.MergeReplayFails | packages/shared/src/applyOp.ts:320-349 | such a ledger and update for the merge of two places and of two categories |
| ReplayWitnesses.PlaceDeleteReplayFails | packages/shared/src/applyOp.ts:357-363 | such ledgers for the delete of a place before an update, a transaction delete and an account delete |
| ReplayWitnesses.CategoryDeleteReplayFails | packages/shared/src/applyOp.ts:350-356 | such ledgers for the delete of a category before the same three |
| ReplayWitnesses.ItemCategoryReplayFails | packages/shared/src/applyOp.ts:350-356 | such ledgers for a category used by one split item, before a delete of its envelope and of the envelope's group |
| ReplayWitnesses.ChainedMergeReplayFails | packages/shared/src/applyOp.ts:320-349 | such ledgers for a chain of merges of places and of categories |
| WellFormedLedger.OpKeepsWellFormed | packages/shared/src/applyOp.ts:201-384 | every operation whose references exist keeps ids distinct and every enforced reference pointing at a row: cascades, set-null, split items, merges and upserts included; the fields are `LedgerRows` |
| LedgerRows.UpdateWrites | packages/shared/src/applyOp.ts:90-218 | after an update on any ledger with distinct ids the row has, field by field, the payload (a transfer no envelope, a split neither envelope nor category), keeps id and creation time, and its tag, reference and allocation where the payload leaves them out, and is sound; or no row so written would be sound and it stands; every other row and collection stands |
| LedgerRows.CreateWrites | packages/shared/src/applyOp.ts:65-207 | a create appends exactly the row of its payload, with nulls for what is left out, unless the id is taken |
| LedgerRows.UpdateAgreesWithCreate | packages/shared/src/applyOp.ts:65-114 | written over a row or created anew, one payload leaves the same in every field it sends |
| LedgerRows.DeleteDrops | packages/shared/src/applyOp.ts:219-223 | a transaction delete drops the rows with the id and nothing else |
| LedgerRows.AccountDeleteDrops | packages/shared/src/applyOp.ts:255-263 | an account goes with every transaction it is the source or the target of |
| LedgerRows.EnvelopeDeleteDrops | packages/shared/src/applyOp.ts:165-278 | an envelope goes with its allocations and split items, every reference to it becomes null, and every other field of every row stands |
| LedgerRows.GroupDeleteDrops | packages/shared/src/applyOp.ts:290-295 | a group goes with exactly the envelopes in it, each as by an envelope delete |
| LedgerRows.AccountUpdateSets | packages/shared/src/applyOp.ts:116-254 | the fields a patch sends are set in the account with the id, the others kept, and all else stands |
| LedgerRows.AccountCreateSets | packages/shared/src/applyOp.ts:125-248 | a new account has the fields sent and the defaults of the program for the others |
| LedgerRows.EnvelopeUpdateSets | packages/shared/src/applyOp.ts:116-274 | the same patch rule for envelopes |
| LedgerRows.EnvelopeCreateSets | packages/shared/src/applyOp.ts:146-268 | the same defaults rule for envelopes |
| LedgerRows.GroupOpsSet | packages/shared/src/applyOp.ts:279-289 | groups are created and patched likewise |
| LedgerRows.EntryOpsSet | packages/shared/src/applyOp.ts:296-319 | categories and places are created active, and patched in the fields sent |
| LedgerRows.PlaceMergeMoves | packages/shared/src/applyOp.ts:337-349 | if both places are listed the source goes and exactly the references to it point at the target; otherwise nothing changes |
| LedgerRows.CategoryMergeMoves | packages/shared/src/applyOp.ts:324-336 | the same for categories, in rows and in the items of splits |
| LedgerRows.EntryDeletesSet | packages/shared/src/applyOp.ts:350-363 | a category or place some row or item uses is archived under its name, one nothing uses is dropped |
| LedgerRows.AllocSetSets | packages/shared/src/applyOp.ts:224-243 | one amount for each listed envelope and month: replaced in place or appended; an unlisted envelope gets none |
| LedgerRows.BudgetUpdateSets | packages/shared/src/applyOp.ts:364-369 | only the currency of the budget with the id changes, and an unknown operation changes nothing |
| BudgetIdentity.TransactionBalances | packages/shared/src/budget.ts:29-91 | for every transaction, what it allocates, less what it spends from envelopes, plus what it leaves unassigned is what it moves on budget plus its gap: what a split is short of, or a transfer without a target |
| BudgetIdentity.IdentityUpToGap | packages/shared/src/budget.ts:7-8 | at every month of every well-formed ledger, the money in envelopes plus the money to be budgeted equals the on-budget balances plus exactly the gaps of its transactions; it gives `Budget.UnassignedMoney` its meaning |
| BudgetRuns.IdentityOverRuns | packages/shared/src/budget.ts:93-196 | after any run of valid operations from any well-formed ledger the two sides differ, at every month, by exactly the gap of the ledger reached |
| BudgetRuns.IdentityWithoutStripping | packages/shared/src/budget.ts:7-8 | from a ledger whose splits add up and whose transfers have targets, every run whose deletes never strip part of a split keeps the identity at every month |
| BudgetRuns.StrippedAmounts | packages/shared/src/applyOp.ts:165-188 | the gap after removing envelopes is the sum of the amounts they take out of splits that keep other items |
| BudgetRuns.IdentityAfterDelete | packages/shared/src/applyOp.ts:275-295 | seen before an envelope or group delete: afterwards the two sides differ by what it strips out of on-budget splits up to the month, so the identity survives exactly when that sum is zero |
| BudgetRuns.StrippingBreaksTheIdentity | packages/shared/src/budget.ts:80-82 | a two-item split and a valid envelope delete after which the identity is off by sixty |
| BudgetRuns.CarryInIsPreviousAvailable | packages/shared/src/budget.ts:141-149 | for every envelope and month the carry-in equals the available amount computed on its own for the month before |
| BudgetRuns.ReadyToAssignIsToBeBudgeted | packages/shared/src/budget.ts:151-166 | at a month not before the last allocation or transaction the month's figure equals the headline figure |
| BudgetRuns.DisplayedTotalRoundTrip | packages/shared/src/automaticEnvelope.ts:65-78 | storing the computed manual allocation makes the month show the total the user typed |
| Budget.AddPairs | packages/shared/src/budget.ts:114-139 | the accumulation loop adds to every id exactly the sum of its pairs and leaves the others alone |
| Budget.ComputeBudgetState | packages/shared/src/budget.ts:93-186 | the loops over maps compute, for every envelope and account, the figures whose every change `BudgetEffects` states and `IdentityUpToGap` and `CarryInIsPreviousAvailable` relate |
| BudgetEffects.TransactionShows | packages/shared/src/budget.ts:29-186 | one more transaction, for every ledger and month: each account balance, each envelope (carry-in, funded, spent, available) and each total changes by an amount read off the transaction alone (expense, refund, income, transfer, split items, allocation source and target, on and off budget, before, in and after the month), and nothing else changes |
| BudgetEffects.AllocationShows | packages/shared/src/budget.ts:114-166 | one more allocation: its envelope gains what the money left to budget loses, from its month on |
| BudgetEffects.NothingShown | packages/shared/src/budget.ts:93-186 | with nothing booked or allocated every account shows its initial balance, every envelope zero, and the on-budget initial balances are to be budgeted; with the two lemmas above this fixes every figure of every ledger |
| BalanceMatch.OptionsShift | packages/shared/src/importBalanceMatch.ts:38-48 | every option moves the balance by exactly its delta, and include, exclude and flip are offered exactly when they make sense |
| BalanceMatch.SetsExact | packages/shared/src/importBalanceMatch.ts:62-87 | the enumeration holds exactly the change sets of the given size and sum, at most one change a candidate |
| BalanceMatch.SetsInOrder | packages/shared/src/importBalanceMatch.ts:62-87 | it is in strict lexicographic order, so nothing is listed twice |
| BalanceMatch.ExactSearch.Search | packages/shared/src/importBalanceMatch.ts:62-81 | the backtracking over the shared stack appends exactly the enumerated solutions, in order and up to the limit, and leaves the stack as it was |
| BalanceMatch.MatchesAreSmallest | packages/shared/src/importBalanceMatch.ts:50-87 | the result is the first `maxSolutions`, in lexicographic order, of all smallest change sets adding up to the difference; it is empty if and only if no set within the limits does; in terms of the pool of options, which `BalanceChoices.MatchesExplain` removes |
| BalanceChoices.MatchesExplain | packages/shared/src/importBalanceMatch.ts:38-87 | over all choices of sensible changes to the first candidates: nothing is returned if and only if no choice of up to `maxChanges` changes moves the balance by the difference; otherwise the first `maxSolutions`, in lexicographic order of candidate positions, of all choices with the fewest changes that do |
| BalanceChoices.ShiftIsBalanceChange | packages/shared/src/importBalanceMatch.ts:38-48 | what choices add up to is the change of the balance once the user has made them all |
| NearestMatch.NearestSearch.Search | packages/shared/src/importBalanceMatch.ts:121-143 | the recursive search leaves in `best` the first of least cost among what it had and every extension of the chosen changes, and restores the stack |
| NearestMatch.NearestIsOptimal | packages/shared/src/importBalanceMatch.ts:110-150 | the result is the first, in lexicographic order, that costs least over all non-empty change sets within the depth, with its true residual; there is none if and only if no set costs less than the difference |
| BalanceChoices.NearestExplains | packages/shared/src/importBalanceMatch.ts:110-150 | over the same choices: nothing if and only if none costs less than the difference; otherwise the first choice of least cost, with what it leaves unexplained |
| NearestMatch.NearestAfterExactIsNotExact | packages/shared/src/importBalanceMatch.ts:110-150 | when the exact search, at least as deep, found nothing, the nearest match leaves something unexplained |
| SignupGate.AtMostOneAccount | packages/api/src/auth.ts:48-89 | over every interleaving of registrations on a closed self-hosted install in which each admitted one inserts its account before its claim expires, at most one account is ever created, although each gate reads its clock before it waits for the lock |
| SignupGate.StepKeepsSafe | packages/api/src/auth.ts:48-89 | the invariant behind it: lock, sweep, claims and clock stay consistent across every step of every registration |
| SignupGate.ExpiredClaimsDoNotBlock | packages/api/src/auth.ts:48-89 | with no account and only expired claims a registration that finds the lock free is admitted, replaces the claims and disturbs nobody else |
| SignupGate.LateRegistrationsCollide | packages/api/src/auth.ts:22-25 | from every first state without claims there is an interleaving, one second late, that creates two accounts |
| SignupGate.DeadlineIsExact | packages/api/src/auth.ts:22-89 | inserting within d seconds of the gate's clock keeps every run of every closed install at one account if and only if d is at most the claim's lifetime |
| SignupGate.DecisionMeans | packages/api/src/auth.ts:66-84 | a registration is refused if and only if the install is closed and an account or an unexpired claim was seen; admitted without an account it leaves a claim for a minute; expired claims go only when it is admitted |
| SignupGate.OpenRefusesNobody | packages/api/src/authPolicy.ts:7-9 | in the cloud or with sign-ups allowed, no interleaving of registrations refuses anybody |
| ImportJobs.ReachedJobsAreShaped | packages/shared/src/importJobs.ts:221-265 | every state any run of typed events reaches satisfies the schema's rules for its status |
| ImportJobs.PhaseNeverGoesBack | packages/shared/src/importJobs.ts:290-342 | between two running states of one attempt the phase of work never decreases, across waits and resumes |
| ImportJobs.AttemptCountsClaims | packages/shared/src/importJobs.ts:290-342 | the attempt counter grows by exactly the number of claims in the run |
| ImportJobs.CancellationIsFinal | packages/shared/src/importJobs.ts:290-342 | once cancellation is requested the request stays and the job can end only as cancelled |
| ImportJobs.CancelAlwaysPossible | packages/shared/src/importJobs.ts:282-342 | every unfinished job can be cancelled in at most two events, a finished one accepts nothing |
| ImportJobs.AcceptedEvents | packages/shared/src/importJobs.ts:282-342 | a well-shaped job accepts exactly the events listed for its status, phases only forward, and with legible time stamps |
| ImportJobs.AdvanceMeans | packages/shared/src/importJobs.ts:290-342 | each of the eight fields after an accepted event |
| ImportWindows.ImportImageChunks | packages/shared/src/importChunks.ts:40-51 | for every count, size and overlap: the three errors exactly when the source throws them, otherwise windows whose owned ranges partition the screenshots, each of at most the chunk size and at the stride |
| ImportWindows.OwnerIsUnique | packages/shared/src/importChunks.ts:68-71 | the lookup returns the one window that owns the screenshot |
| ImportWindows.RecordedRangesRebuild | packages/shared/src/importChunks.ts:53-66 | recorded ranges, in any order, rebuild exactly the layout they were recorded from |
| ImportChunks.ParseMeans | packages/shared/src/aiPrompts.ts:976-1001 | parsing keeps every row with its id and facts, in screenshot order, and numbers every screenshot densely whatever orders the model gave |
| ImportChunks.ChunkRowIdInjective | packages/shared/src/importChunks.ts:75-77 | prefixed row ids of two windows, or of two rows of one window, never collide |
| ImportChunks.RebaseOwned | packages/shared/src/importChunks.ts:79-92 | a rebased batch holds only rows of screenshots its window owns, under ids of its own, with relations that stay inside it |
| ImportChunks.RebaseKeepsAll | packages/shared/src/importChunks.ts:79-92 | every row behind the lead-in comes along in its place, with all its facts, shifted and renamed, and keeps its relation exactly when its target comes along |
| ImportChunks.MergeIsSafe | packages/shared/src/importChunks.ts:94-110 | batches of a layout merge without colliding ids into strict screenshot order, without a dangling relation, every row read by the window that owns its screenshot |
| ImportChunks.MergeChunkBatches | packages/shared/src/importChunks.ts:94-107 | the merge is refused exactly when an id repeats, otherwise it is the stable sort of all rows |
| ImportExtraction.ImportPipelineChunks | packages/shared/src/aiPrompts.ts:593-597 | a resumed job works on exactly the layout its ranges were recorded from, in whatever order they were; any recorded layout comes in index order |
| ImportExtraction.ExtractAllChunks | packages/shared/src/aiPrompts.ts:599-638 | the two passes over stored and attempted windows, with batches kept by index, depend only on how each window ends; without repeated indices the outcome is that of the windows themselves |
| ImportExtraction.SettlingOrderIsIrrelevant | packages/shared/src/aiPrompts.ts:599-638 | whichever windows settle first, the recorded state is the same |
| ImportExtraction.ResumeIsTransparent | packages/shared/src/aiPrompts.ts:566-638 | after any number of interrupted runs the outcome is that of one run in which each window answered with its first settling attempt |
| ImportExtraction.ResumedImportIsWellMerged | packages/shared/src/aiPrompts.ts:593-638 | an import of several windows never fails on colliding ids, and what it reads is well merged, however many runs it took |
| ImportScreens.TwinGroupsMean | packages/shared/src/importChunks.ts:252-260 | each group of the twin index holds exactly the financial rows repeating one visible entry |
| ImportScreens.LeadingMeans | packages/shared/src/importChunks.ts:326-342 | the leading block is exactly what stands above every date divider of the screenshot |
| ImportScreens.TrailingMeans | packages/shared/src/importChunks.ts:326-342 | the trailing block is exactly what stands below the last one |
| ImportScreens.LayoutScreenshots | packages/shared/src/importChunks.ts:326-342 | one layout for each screenshot that occurs, none for any other |
| ImportScreens.TowardsMeans | packages/shared/src/importChunks.ts:394-411 | the neighbour walk ends, and finds the date of the nearest divider reachable without a gap |
| InferDates.InventsNothing | packages/shared/src/importChunks.ts:361-447 | every changed date is flagged inferred and occurs in the batch, divider rows and dates read below a divider never change, and every added link names the same entry in another screenshot |
| InferDates.ReadDatesStand | packages/shared/src/importChunks.ts:361-447 | a divider row comes out unchanged, and so do the date and flag of a row read below a divider of its own screenshot |
| InferDates.LeadingRowsAreDated | packages/shared/src/importChunks.ts:394-411 | once repeats show which neighbour lies above, no entry at the top of a screenshot stays undated if a divider can be reached that way; which way that is, and which date it gets, are `ScreenVotes.DirectionMeans` and `InferMeaning.DividersAreTaken` |
| ScreenVotes.DirectionMeans | packages/shared/src/importChunks.ts:344-359 | the next screenshot is above if and only if pairs of repeats that lead in m and trail in m+1 outnumber those that trail in m and lead in m+1, below if and only if they are fewer, undecided otherwise |
| InferTwins.TwinsAreFilled | packages/shared/src/importChunks.ts:361-383 | first pass: a row without a date takes exactly the one date its repeats in neighbouring screenshots agree on, seen in row order, and the first row that asks links the later capture to the earlier one |
| InferMeaning.LeadingIsFilled | packages/shared/src/importChunks.ts:385-392 | second pass: at the top of a screenshot with a single known date exactly the undated rows take it |
| InferMeaning.DividersAreTaken | packages/shared/src/importChunks.ts:394-411 | third pass: a row at the top of a screenshot that has no date, or the date of the nearest divider the wrong way, gets exactly the date of the nearest last divider in the direction voted above; everything else stands |
| InferAnchors.AnchorsAreTaken | packages/shared/src/importChunks.ts:413-447 | last pass: a loose row whose repeats under their own dividers elsewhere agree on a date takes it and is linked to the first of them, or, with an exchange line, the anchor to it; everything else stands |
| InferMeaning.InferenceMeans | packages/shared/src/importChunks.ts:361-447 | the inference is these four passes, for every batch with distinct ids |
| InferDates.AboveStays | packages/shared/src/importChunks.ts:344-359 | which neighbour lies above can be read off the rows as they came: earlier passes do not change the vote |
| InferDatesLoops.InferImportDates | packages/shared/src/importChunks.ts:361-447 | the four mutating passes over rows with distinct ids compute the function `InferMeaning.InferenceMeans` and the lemmas above are about |
| ImportDedupe.ClassifyMeans | packages/shared/src/importDedupe.ts:51-82 | an entry exists exactly when a row of the same day and amount is recognised by text or transfer direction, is new exactly when none is recognised and none but incoming transfers has the same day and amount, and is probable otherwise |
| ImportReconcile.ReimportSelectsNothing | packages/shared/src/importRecognition.ts:515-576 | importing the same proposals again, after the selected ones were booked with their text as source reference, selects no candidate, despite the marks left in the batch and rows skipped the first time; when a first import does select is `ReconcileMeaning.SelectedExactly` |
| ImportReconcile.ExtractionImportedOnce | packages/shared/src/importRecognition.ts:395-576 | the same from raw rows: extraction, review, booking and a second review; what the first one selects is `ExtractionMeaning.ExtractionMeans` and `ReconcileMeaning.SelectedExactly` |
| ImportReconcile.BatchBooksOnce | packages/shared/src/importRecognition.ts:515-576 | of two captures of one entry in a batch at most one stays a selected candidate; exactly when one does is `ReconcileMeaning.SelectedExactly` |
| ReconcileMeaning.ReconcileMeans | packages/shared/src/importRecognition.ts:515-576 | for every batch and every account: the status of each proposal says exactly whether a booked transaction, or an earlier new candidate of the batch, is the same entry or the same money; status and account decide disposition and selection; all other fields stand except unknown envelopes and categories and the envelope of an income |
| ReconcileMeaning.SelectedExactly | packages/shared/src/importRecognition.ts:515-576 | a candidate comes out selected if and only if it went in selected, the account is valid, it is not a repeat and, if dated, neither it nor its money is known to the account and no earlier new candidate is the same entry |
| ImportReconcile.CandidatesAreComplete | packages/shared/src/importRecognition.ts:326-493 | every proposed candidate has a date, a positive amount and a type |
| ImportReconcile.KeptRelationsAreSupported | packages/shared/src/importRecognition.ts:268-324 | a relation a proposal keeps is the row's own, points at another row of the batch, and is backed by the facts of both |
| ExtractionMeaning.ExtractionMeans | packages/shared/src/importRecognition.ts:268-513 | for every row of every batch with distinct ids: its type by kind and direction, disposition, selection, relation kept exactly when the target exists and the facts bear it, converted amount by the last exchange line, and for each of the thirteen reasons exactly when it is given |
| ExtractionMeaning.LinesJoined | packages/shared/src/importRecognition.ts:372-393 | the visible text of a proposal is the lines of its row, one below the other |
| ImportHistory.SelectionForgetsOrder | packages/shared/src/importHistory.ts:158-270 | any permutation of the records gives the same candidates, counts, conflict flag and agreed fields |
| ImportHistory.CountsAddUp | packages/shared/src/importHistory.ts:167-227 | the counts of all groups add up to the number of compatible matching records |
| ImportHistory.GroupsRepresent | packages/shared/src/importHistory.ts:167-227 | each group carries the number of its records and evidence that none of them beats |
| ImportHistory.SelectImportHistoryCandidates | packages/shared/src/importHistory.ts:162-270 | the fold into a mutable map, the ranking and the cut compute the selection the three lemmas are about |
| HistoryMeaning.HistoryMeans | packages/shared/src/importHistory.ts:86-270 | over the past bookings: one group for each assignment that a fitting and matching booking offers, with their number and the strongest evidence among them, strongest first; groups that name the merchant hide mere likeness; the cut, the conflict flag and every prefilled field follow from the groups shown |
| SpendingReports.PartsAddUp | packages/shared/src/reports.ts:78-104 | however a dimension cuts an expense up, its parts add up to what it spends outside savings |
| SpendingReports.EveryDimensionAddsUp | packages/shared/src/reports.ts:106-129 | the rows of every dimension are exactly the keys with money, with their totals, and add up to the spending of the months |
| ReportsMeaning.ReportMeans | packages/shared/src/reports.ts:78-129 | over the transactions: one row, with amount and share, for exactly the keys with money, largest first, where an expense counts whole or by its items, a refund against it, and nothing that goes into a savings envelope |
| ReportsMeaning.TotalsMean | packages/shared/src/reports.ts:78-129 | the per-key and overall totals every report and the explorer agree on are those sums over the transactions |
| SpendingReports.ComputeCashflowSeries | packages/shared/src/reports.ts:26-52 | one point for each of the last months, at least one, with that month's income and expense |
| ReportsMeaning.CashflowMeans | packages/shared/src/reports.ts:26-52 | the income of a month is the sum of its income transactions, its expense what its transactions spend |
| SpendingReports.ComputeDailySpending | packages/shared/src/reports.ts:142-154 | one point for each day of the month with that day's spending |
| ReportsMeaning.DayMeans | packages/shared/src/reports.ts:142-154 | a day's total is what the transactions of that date spend, refunds, splits and savings included |
| SpendingReports.MonthIsItsDays | packages/shared/src/reports.ts:142-154 | a month's spending is the sum of its days plus what carries a day the month does not have |
| SpendingReports.DayPanelAgrees | packages/shared/src/reports.ts:170-213 | the day panel's total, its envelope rows and the calendar cell agree |
| SpendingExplorer.ExplorerAgreesWithReport | packages/shared/src/spendingExplorer.ts:43-75 | for every dimension, range of months and key, the explorer's total is the report's |
| SpendingExplorer.ExplorerAgreesWithCashflow | packages/shared/src/spendingExplorer.ts:43-75 | all the explorer shows for a range is the spending of those months, and for one month the cash-flow expense |
| ExplorerMeaning.EntriesMean | packages/shared/src/spendingExplorer.ts:43-75 | each expense contributes, in order, one entry for every unsaved item with money or one for the whole, with its date, place, account, group, envelope, category and signed amount, and nothing else contributes |
| SpendingBreakdown.BreakdownConserves | packages/shared/src/spendingExplorer.ts:96-112 | the rows of a level add up to the entries, each row to the entries with its key, one row a key |
| ExplorerMeaning.LevelMeans | packages/shared/src/spendingExplorer.ts:96-116 | one row for each key some entry has, with exactly those entries, larger first, then newer, then by id, and their sum; months newest first, other rows largest first |
| SpendingBreakdown.MergeConserves | packages/shared/src/spendingExplorer.ts:153-170 | merging leaves one line per transaction, in order of appearance, and keeps the money |
| ExplorerMeaning.MergeMeans | packages/shared/src/spendingExplorer.ts:153-170 | one line for each transaction, in the order of their first entries: the first entry with the money of all, and as mixed exactly the dimensions in which one of them differs from it |
| SpendingBreakdown.StatementsConserve | packages/shared/src/spendingExplorer.ts:179-211 | both ways of folding repeated lines keep the money |
| ExplorerMeaning.StatementMeans | packages/shared/src/spendingExplorer.ts:191-211 | three or more payments that read alike are one line that shows the first, with their number and money; any other payment is a line of its own; every payment is counted once; largest first, newer before older |
| ExplorerMeaning.FoldKeysMean | packages/shared/src/spendingExplorer.ts:179-189 | which payments read alike: the same place and amount, or the same name, place, envelope, category, account and amount with a name or a place and nothing mixed |
| SpendingBreakdown.WholeMonths | packages/shared/src/spendingExplorer.ts:81-85 | an unnarrowed filter selects what the report's range selects if, and for a range that is not reversed only if, no entry of its first month lies before it and none of its last month after it |
| SpendingBreakdown.FilteredAgreesWithReport | packages/shared/src/spendingExplorer.ts:43-85 | what the explorer's filter shows for whole months is, key by key, what the report shows, in all the spending of those months, and for one month the cash-flow expense |
| SpendingBreakdown.OpeningGrouping | packages/shared/src/spendingExplorer.ts:136-151 | the loop ends, hides no entry when it passes over a level of a single row, and stops at the default grouping of the path reached, which never has a single row |
| ExplorerMeaning.DefaultMeans | packages/shared/src/spendingExplorer.ts:118-134 | a level opens by the natural next dimension if that still splits, else by the first of envelope, group, category and place that does, else with the list |
| RuntimeClosure.ComputeClosure | scripts/lib/runtimeClosure.ts:70-111 | the walk ends on every store, keeps only what the roots reach over required links, keeps all of it when directories are separate, and records for each kept entry a package that requires it |
| RuntimeClosure.ExactWhenDirsAreSeparate | scripts/lib/runtimeClosure.ts:70-111 | for every way of naming directories: the walk is exact on all stores if and only if no two packages share a directory |
| RuntimeClosure.PruningIsSafe | scripts/lib/runtimeClosure.ts:113-119 | pruning what the walk did not reach never removes a package that a kept one requires |
| RuntimeClosure.DeadExactly | scripts/lib/runtimeClosure.ts:113-119 | dead are exactly the listed entries that were not reached and are not the bookkeeping directory, sorted |
| WebBundle.InitialJsClosure | scripts/lib/webBundle.ts:148-169 | exactly the JavaScript chunks statically reachable from an entry, each once and sorted; an unknown import is reported if and only if a loaded chunk names one, and no entry if and only if there is none |
| ReleaseVersion.AcceptedParts | scripts/lib/releaseVersion.ts:50-137 | what an accepted tag is made of: three numbers without leading zeros and well-formed prerelease identifiers, joined back into the version text |
| ReleaseVersion.AcceptedExactly | scripts/lib/releaseVersion.ts:50-137 | a tag is accepted if and only if it is a lower-case v and three numbers without leading zeros, alone or followed by a dash and well-formed identifiers between dots |
| ReleaseVersion.AcceptedReparses | scripts/lib/releaseVersion.ts:180-183 | the version text of an accepted release parses back to that release |
| ReleaseVersion.ComparesAsSemVer | scripts/lib/releaseVersion.ts:194-221 | comparison agrees in both directions with section 11 of SemVer 2.0.0, is antisymmetric, and says equal if and only if the version texts are equal |
| ReleaseVersion.ComparesTransitively | scripts/lib/releaseVersion.ts:194-221 | it is transitive, strictly so when either step is strict |
| ReleaseVersion.AliasServesHighest | scripts/lib/releaseVersion.ts:237-291 | after any sequence of releases, repeats and re-runs included, an initially absent alias serves the highest version that earned it |
| ReleaseVersion.AliasForgetsOrder | scripts/lib/releaseVersion.ts:237-291 | two histories of the same releases leave the alias the same |
| ReleaseVersion.AliasesAreEarned | scripts/lib/releaseVersion.ts:289-291 | exactly the stable releases earn aliases: `latest`, and their version without the patch number |
| ReleaseVersion.MovePlanned | scripts/lib/releaseVersion.ts:252-287 | an alias moves if and only if it is absent or serves a version that precedes the release, and is left alone as up to date if and only if it serves it already |
| BudgetSuggest.HandsOutAll | packages/shared/src/budgetSuggest.ts:51-71 | the shares add up to exactly the amount |
| BudgetSuggest.SharesAreFair | packages/shared/src/budgetSuggest.ts:51-71 | each share is the exact one rounded down, or up if it has a fraction, and never more than the weight |
| BudgetSuggest.LargerFractionsFirst | packages/shared/src/budgetSuggest.ts:51-71 | whoever is rounded up has a larger fraction than whoever is not, or an equal one and a smaller id |
| BudgetSuggest.LargestRemainderScale | packages/shared/src/budgetSuggest.ts:51-71 | the loops over shares, fractions and leftovers compute those shares for every entry |
| BudgetSuggest.TopUpSpendsPool | packages/shared/src/budgetSuggest.ts:73-87 | a pool too small for the deficits is handed out to the last unit, a sufficient one covers exactly them, and nothing is overdrawn |
| BudgetSuggest.TopUpIsFair | packages/shared/src/budgetSuggest.ts:73-87 | money is proposed only for active envelopes in the red, at most up to zero, and of a short pool the exact share rounded down or up |
| BudgetSuggest.Result | packages/shared/src/budgetSuggest.ts:32-42 | distributed plus undistributed less over is always the pool, and one of the last two is zero |
| BudgetSuggest.PresetReaches | packages/shared/src/budgetSuggest.ts:89-107 | a preset proposes only for active envelopes and brings a topped-up one exactly to its amount |
| SuggestMeaning.TopUpMeans | packages/shared/src/budgetSuggest.ts:73-87 | the proposal is, in their order, every active envelope in the red: up to zero if the pool allows, else apportioned shares that use up the pool |
| SuggestMeaning.PresetMeans | packages/shared/src/budgetSuggest.ts:89-107 | each entry of a preset adds the proposal for its active envelope, its amount or what is missing to reach it, or counts as skipped if and only if there is none |

## Left out

- Replay.ReplayOverSnapshot: its side conditions are sufficient, not necessary; outside them replay can differ, see Findings, and longer histories that break one are not characterised exactly.
- Replay.AbsorbedHistoryIsStable: under the same side conditions.
- ReplayLimits.GroupDeleteReplay: stated for two operations, as are the other exact conditions (three for chained merges).
- ImportReconcile.ReimportSelectsNothing: dates, text normalisation and the account's direction rules are parameters, and the similarity score plays no part in it.
- InferDatesLoops.InferImportDates: requires distinct row ids, which parsing and merging guarantee; it does not claim that `duplicate_of` links are free of cycles, because two rows can each be pointed at the other.
- ImportExtraction.ResumedImportIsWellMerged: a single-window import keeps its rows as the model sent them, so relations may dangle there as they do in the source.
- ImportHistory.SelectionForgetsOrder: keys that the source serialises to text are compared as values, so collisions between serialised keys are not modelled.
- SignupGate.AtMostOneAccount: the deadline on the insert is a hypothesis; the database's own isolation and rollback appear only as atomic steps.
- NearestMatch.NearestIsOptimal: the price of a change is any integer; the source derives it from the difference with floating point.
- BudgetSuggest.LargestRemainderScale: quotients and remainders are exact; the source divides in floating point, so very large amounts can round differently there.
- Numbers: money, versions and counters are unbounded integers; the loss of precision of JavaScript numbers is not modelled.
- `budget.preferences.update` and `reconcileBudgetPreferences`: preferences are opaque to the ledger.
- Server side: applying operations in the database, its conflict rules and the agreement of server and client.
- `repairImportRelations`, `findImportSeamPairs`, `findImportSeamDatelessRepeats` and the seam verdicts: pairing of near-duplicates across windows.
- `captureAllocationFlow` and `resolveAllocationFlow`: one-step choices of an envelope.
- Model transport, prompts, enrichment answers and JSON schema checks: a model answer is an arbitrary batch.
- Text rules (normalisation, trimming, calendar dates, trigram similarity, id and text orders): parameters of the model.
- Composite text keys such as `a|b|c` are tuples, so a separator inside a part is not modelled.
- Ids are numbers compared for equality only, and dates are a month and a day.
- Rows that the source shares by reference are values: an alias to a row that is later replaced is not modelled.
- Screenshot ranges recorded beyond the supplied images, place statistics, names of report rows, `monthlyTotals`, trends and goals.
- `closureProblems`, the bundle size budget, `checkAppVersion` and `fillByGoals`: they would only add easy members.
