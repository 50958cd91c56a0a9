# Verified model of the allocation planner, the application review and the warehouse merge

The project models three parts of the back end and proves what they promise.

**The allocation planner.** An order asks for quantities of materials; warehouses hold stock at known distances. The
planner tries the nearest single warehouse that covers the order, then the smallest and nearest covering set,
enumerated by an index array that is advanced in place, and otherwise fills greedily and reports shortfalls. An
administrator can list the covering alternatives and re-plan on a chosen set.

- `Sequences.dfy`: sums, selections, stable sorting. `Combinations.dfy`: the generator.
- `Planner.dfy`: covering, one visit to one warehouse, the outstanding quantities (class `Remaining`), and the closed
  form of a greedy fill. `PlanSearch.dfy`: the three attempts and the planner.
- `Optimality.dfy`, `Fulfilment.dfy`, `Priority.dfy`: what a plan achieves. `Alternatives.dfy`: the administrator's
  side. `Replans.dfy`: re-plans against the plan. `Shipments.dfy`: what each warehouse ships in either. `Reports.dfy`:
  what a plan reports, line by line.
- `Robustness.dfy`, `ListingOrder.dfy`, `ListingTally.dfy`, `ListingChoice.dfy`: how a plan reacts to the list of
  warehouses.
- `RealQuantities.dfy`: tolerance and rounding over real quantities.

Quantities and distances are integers counted in thousandths, the scale of the `numeric(_,3)` columns;
`RealQuantities.ToleranceOnGrid`, `TakeOnGrid` and `ServedOnGrid` justify this. Callers supply distinct material keys,
distinct warehouse ids and non-negative stock where a statement says so. "Positive demand" means that at least one line
asks for something.

**The application review.** One account, its wallets, onboarding progress and documents.

- `Onboarding.dfy`: the step ledger. `Accounts.dfy`: every move as a function of the stored state.
- `AccountInvariants.dfy`: what every run of moves keeps. `AccountService.dfy`: the moves as methods on the stored rows
  (class `CaseFile`). Its `Valid()` says that some run leaves these rows, and every method keeps it, so whatever is
  proved of all runs holds of the rows; each method also states its exact effect and that the status follows the life
  cycle.
- `MoveEffects.dfy`: for every move, exactly when it is accepted, and what it leaves of the account and of each document.
  `MoveHistory.dfy`: what the accepted moves of a run say of where it has led. `Refusals.dfy`: refusals give true reasons.
- `ReviewProgress.dfy`, `ReuploadRequests.dfy`: what the review can do. `ReviewRuns.dfy`: runs in which it does not do
  what is said of it. `LifeCycle.dfy`: the statuses and their edges. `DocumentIndex.dfy`, `DocumentCount.dfy`: the reviewer's view and the count of the documents.
- Statements about accounts that are *followed* leave out drivers, who are decided in Odoo, and administrators, who do
  not apply.

**The warehouse merge.** `WarehouseMerge.dfy` models the migration that leaves one warehouse for each Odoo id (class
`Store`), `MergeRanking.dfy` how it chooses, `MergeOutcome.dfy` what it leaves behind and when the database lets it
commit.

## Where the code does not do what is said of it

- *Listing order.* Coverage and missing amounts never depend on the order in which the warehouses are listed, nor do
  part count and score of an order that can be covered. For an order that cannot be covered they may, when two
  warehouses are equally far (`Robustness.ListingMattersForUncovered`, `ListingMattersInstance`).
  `ListingOrder.ListingNeverMattersIff` gives the exact condition for the warehouses that serve it,
  `ListingTally.PartCountIsFreeIff` and `ScoreIsFreeIff` those for its part count and score. `ListingChoice.ChoiceIsFreeIff`
  says exactly when the warehouses chosen for an order that can be covered do not depend on it either.
- *An order that asks for nothing* gets a part without lines from the nearest warehouse (`Robustness.EmptyPartIff`).
- *Rounding.* Off the thousandths grid a take of exactly half a thousandth rounds up both the shipped line and the
  remainder (`RealQuantities.HalfWayShipsTooMuch`); `DriftIsHalfWayStocks` says for which stocks.
- *Cancelling requests.* The comment at `src/account-management/account-management.service.ts:756-757` says that an
  application whose requests were cancelled can be rejected because every document has been judged. An unread document
  refuses that rejection: `ReviewRuns.CancelCanLeaveNoDecision` gives a run after which neither decision is
  accepted, `ReuploadRequests.CancelWithdrawsTheQuestion` the exact condition.
- *Asking again* does not re-open a rejected application, although the comment at lines 649-653 of the same file says
  so; it is always refused, and re-opening is accepted (`ReviewProgress.AskingNeverReopens`).
- *Re-uploading* one of several requested documents leaves the account waiting, although the comment at
  `src/media/media.service.ts:61-62` says that it returns to review (`ReviewRuns.OneAnswerIsNotEnough`); exactly the
  last answer does (`ReuploadRequests.WaitsForTheLastAnswer`).
- *The counting check* at `src/media/media.service.ts:520-526` is documented as asking whether all required images are
  uploaded and approved; it only counts them. `ReviewRuns.CountedButUnread` gives a run on which the two differ,
  `DocumentCount.CheckAgreesIff` says exactly when they agree, and `NobodyCouldApply` that with the documented check no
  factory or institution would ever come under review.
- *Accepted documents* are said to be settled, so that the applicant cannot swap them (`src/media/media.service.ts:76-78`),
  and the routes that replace a document are said to replace one that is still pending
  (`src/onboarding/controllers/factory-onboarding.controller.ts:93`, and the same in the other onboarding controllers).
  `ReviewRuns.AcceptedDocumentCanBeReplaced` gives a run on which an accepted document of an undecided application is
  replaced, `ApprovedFileCanBeExchanged` one on which the file of an approved account is exchanged;
  `ReviewProgress.ApprovedDocumentTouchedIff` says exactly which moves touch an accepted document, and `ApprovalIsFinal`
  what survives them once the account has been let in.
- *The merge* does not count orders among the dependents, so a warehouse with orders can lose and abort the migration
  (`MergeOutcome.WarehouseWithOrdersCanLose`; `CommitsIff` is the exact condition).
- *The merge's losers* are said to be repointed so that nothing referencing them is orphaned
  (`db/migrations/1786100000000-warehouseOdooLinkUniqueMigration.ts:19-20`). Truck handovers are cleared, and offers,
  ratings, complaints and cached distances are deleted with a loser: `MergeOutcome.HandoverIsOrphaned` gives a merge,
  `GoesWithALoserIff` exactly what goes, and `NothingOrphanedIff` when the comment is right.

Google sign-in is said to settle a status by exactly the rule of the emailed code (`src/auth/auth.service.ts:646-647`).
The two rules differ for an administrator only (`AccountInvariants.SettledAlikeIff`), whom no route signs up, so on
every run through the routes the comment is right (`SettledAlike`).

## Model

| member | source | states |
|---|---|---|
| Combinations.Advance | test-allocation-planner.js:39-43 | the index array becomes the bump of its rightmost movable position, or is unchanged and at its last value |
| Combinations.Generate | test-allocation-planner.js:34-45 | for every list and every k, what is yielded is the list of all k-combinations in order |
| Combinations.TuplesAreCombinations | test-allocation-planner.js:34-45 | everything listed is a strictly increasing k-tuple of indices |
| Combinations.EveryCombinationListed | test-allocation-planner.js:34-45 | every strictly increasing k-tuple of indices is listed |
| Combinations.TuplesAscend | test-allocation-planner.js:34-45 | the tuples come in lexicographic order |
| Combinations.TuplesNeverRepeat | test-allocation-planner.js:34-45 | no tuple is listed twice |
| Combinations.BumpedIsNext | test-allocation-planner.js:40-43 | no combination lies between an index tuple and the one the step makes of it |
| Planner.Remaining.constructor | test-allocation-planner.js:70 | the outstanding quantities start as the demanded ones |
| Planner.Remaining.TakeFrom | test-allocation-planner.js:21-32 | the shipped lines are the smaller of need and stock in key order, and exactly they are struck off |
| Planner.Remaining.IsSatisfied | test-allocation-planner.js:47-50 | true exactly when nothing is outstanding |
| Planner.TakenLinesClosedForm | test-allocation-planner.js:21-32 | what a visit ships depends only on the demand and the total stock visited before |
| PlanSearch.ShortfallsClosedForm | test-allocation-planner.js:52-57 | the outstanding quantities, read off after a fill, give the shortfalls of the closed form, in which Reports.ShortfallsTellTheTruth says what each field means |
| PlanSearch.BuildCoveringPlan | test-allocation-planner.js:69-80 | stopping early changes nothing: the result is the greedy fill of the whole combination |
| PlanSearch.VisitSupply | test-allocation-planner.js:102-103 | one round of a fill adds the part of this warehouse, unless it ships nothing, and strikes off what it ships |
| PlanSearch.PlanPartial | test-allocation-planner.js:95-107 | the result is the greedy fill of the warehouses visited before the part limit |
| PlanSearch.PlanFewestParts | test-allocation-planner.js:82-93 | the result is the fill of the first nearest cover of the smallest covering size, or none |
| PlanSearch.PlanAllocation | test-allocation-planner.js:109-118 | the plan is the first of the three attempts that succeeds, on the stably sorted list; what its parts, shortfalls and score are is stated by the rows below |
| Sequences.SortByStable | test-allocation-planner.js:111 | equally distant warehouses keep their listed order |
| Optimality.SingleCandidateIsNearest | test-allocation-planner.js:59-67 | the single warehouse found is a nearest one that covers alone, and none is found only if none does |
| Optimality.SinglePlanIsFill | test-allocation-planner.js:59-67 | the single-warehouse plan, built without a visit, is what a visit would ship |
| Optimality.BestCoverIsNearest | test-allocation-planner.js:84-89 | the combination kept covers and is nearest among the covering ones, or none covers |
| Optimality.FewestCoverIsSmallest | test-allocation-planner.js:82-93 | no smaller size has a cover |
| Optimality.ChosenIsMinimal | test-allocation-planner.js:59-93 | for a positive demand that can be covered, the chosen combination covers, no smaller one does, and none of its size is nearer |
| Optimality.EveryChosenShips | test-allocation-planner.js:69-93 | every warehouse of the chosen combination ships something |
| Optimality.PlannedIsFill | test-allocation-planner.js:109-118 | for a real order all three attempts return the greedy fill of the chosen warehouses |
| Optimality.PartsAreTheChosen | test-allocation-planner.js:69-93 | one part for each chosen warehouse; the score is the minimised distance |
| Optimality.PlanBeatsEverySelection | test-allocation-planner.js:82-118 | no covering selection is smaller than the plan, none of the same size is nearer |
| Optimality.PlanIsASelection | test-allocation-planner.js:82-118 | the bound is attained by the plan's own warehouses |
| Optimality.NoAllocationBeatsThePlan | test-allocation-planner.js:82-118 | no stock-respecting allocation that meets a positive demand uses fewer warehouses, and none with equally many is nearer |
| Fulfilment.NothingIsLost | test-allocation-planner.js:52-118 | per line, what is shipped and what is reported missing add up to what was asked for |
| Fulfilment.MissingIsExact | test-allocation-planner.js:95-118 | the missing amount is max(0, requested - total stock) |
| Fulfilment.FullyCoveredIffStockSuffices | test-allocation-planner.js:95-118 | a plan claims full cover exactly when the total stock meets every line |
| Fulfilment.NoAllocationMissesLess | test-allocation-planner.js:95-118 | no allocation within the stock leaves less unmet |
| Reports.ShortfallsTellTheTruth | test-allocation-planner.js:52-57 | the shortfalls are those of the lines that the stock does not meet, in the order of the demand; each gives the quantity asked for, the quantity the parts carry and the quantity no stock provides |
| Reports.OneShortfallAKey | test-allocation-planner.js:52-57 | no material is reported twice |
| Reports.LinesInDemandOrder | test-allocation-planner.js:21-32 | every part lists its materials in the order of the demand |
| Reports.ScoreIsPartDistance | test-allocation-planner.js:64-107 | whatever the order, covered or not, the score is the distance of the parts |
| Shipments.PlanRespectsStock | test-allocation-planner.js:21-32 | every part is a known warehouse's, with one line a key and no line above its stock; no warehouse has two parts |
| Shipments.ShipmentsWithinStock | test-allocation-planner.js:21-118 | over the whole plan no warehouse ships more of any material than it holds |
| Shipments.ReplanRespectsStock | test-allocation-planner.js:120-126 | the same of a re-plan |
| Shipments.ReplanEmptiesNearerFirst | test-allocation-planner.js:120-126 | in a re-plan nearer warehouses are emptied first, and parts are in non-decreasing distance |
| Fulfilment.NoDemandPlan | test-allocation-planner.js:59-67 | an order for nothing gets at most one part, without lines |
| Priority.NearerAreEmptiedFirst | test-allocation-planner.js:69-107 | a warehouse ships a material only if every nearer chosen one has shipped all of it |
| Priority.PartsByDistance | test-allocation-planner.js:69-118 | parts are in non-decreasing distance |
| Priority.RatioIsUnshippedShare | test-allocation-planner.js:143-148 | the ratio is 1 - shipped/requested, between 0 and 1, 0 exactly when fully covered and 1 exactly when nothing ships |
| Reports.NothingAskedRatio | test-allocation-planner.js:143-148 | for an order that asks for nothing the ratio is 0 |
| Alternatives.CoveringCombinations | test-allocation-planner.js:128-141 | the options are the covering combinations of the contributing warehouses, stably sorted by distance |
| Alternatives.OfferedAreCovers | test-allocation-planner.js:135-139 | every option is a covering choice of that many contributing warehouses at its true distance |
| Alternatives.CoversAreOffered | test-allocation-planner.js:135-139 | every covering choice of contributing warehouses is offered |
| Alternatives.OfferedOnceByDistance | test-allocation-planner.js:140 | no option is repeated and the nearest come first |
| Alternatives.PlanSizedCoversAreOffered | test-allocation-planner.js:128-141 | at the plan's part count, dropping the warehouses that contribute nothing loses no cover |
| Alternatives.MinimalCoverContributes | test-allocation-planner.js:130-131 | every warehouse of a minimal cover contributes something that is asked for |
| Reports.ContributesIffItShips | test-allocation-planner.js:130-131 | a warehouse contributes exactly when a visit to it alone ships something |
| Reports.CoverWithoutIdlers | test-allocation-planner.js:130-131 | leaving out the warehouses that do not contribute neither breaks a cover nor makes one |
| Reports.EqualOffersKeepOrder | test-allocation-planner.js:135-140 | options at the same distance come in the order in which they were generated |
| Alternatives.FirstOfferMatchesPlan | test-allocation-planner.js:109-141 | the first option of the plan's size is as near as the plan |
| Alternatives.NoOfferIsNearer | test-allocation-planner.js:109-141 | no option of the plan's size is nearer than the plan |
| Alternatives.PlanForWarehouses | test-allocation-planner.js:120-126 | the re-plan is the greedy fill of exactly the chosen warehouses, nearest first |
| Alternatives.ReplanRefusedIff | test-allocation-planner.js:120-124 | refused exactly when an id is unknown or the set does not cover |
| Alternatives.ReplanShipsEverything | test-allocation-planner.js:120-126 | an accepted re-plan ships every line in full |
| Alternatives.OfferedIsAccepted | test-allocation-planner.js:120-141 | every option offered is accepted by the re-plan and leaves no shortfall |
| Replans.NoReplanBeatsThePlan | test-allocation-planner.js:109-126 | no accepted re-plan of a positive demand has fewer parts than the plan, and none with equally many has a smaller score |
| Replans.EmptyReplanIsSmallerIff | test-allocation-planner.js:59-80 | for an order that asks for nothing every re-plan is empty, and so smaller than the plan exactly if there is a warehouse |
| Replans.ReplanOfThePlan | test-allocation-planner.js:109-126 | re-planning on the plan's own warehouses returns the plan |
| Replans.SortSelects | test-allocation-planner.js:111-125 | sorting the chosen warehouses keeps them in the planner's order |
| Robustness.EmptyPartIff | test-allocation-planner.js:59-107 | no part is empty exactly when something is asked for or there is no warehouse |
| Robustness.MoreNeverMissesMore | test-allocation-planner.js:109-118 | a further warehouse keeps a covered order covered and raises no missing amount |
| Robustness.MoreNeverSplitsMore | test-allocation-planner.js:109-118 | nor the part count of a covered order, nor its score at the same part count |
| Robustness.MorePartsWithoutDemandIff | test-allocation-planner.js:59-67 | for an order that asks for nothing a further warehouse raises the part count exactly when the list was empty |
| Robustness.ListingKeepsCoverage | test-allocation-planner.js:109-118 | permuting the warehouses changes neither coverage nor missing amounts |
| Robustness.ListingKeepsCoveredPlan | test-allocation-planner.js:109-118 | nor part count and score of an order that can be covered, also when it asks for nothing |
| Robustness.ListingWithoutTies | test-allocation-planner.js:109-118 | without equal distances the whole plan is unchanged |
| Robustness.ListingMattersForUncovered | test-allocation-planner.js:95-118 | a family of uncovered orders whose part count and score depend on the listing |
| Robustness.ListingMattersInstance | test-allocation-planner.js:95-118 | one such order |
| ListingOrder.ListingNeverMattersIff | test-allocation-planner.js:95-118 | an uncovered order is served by the same warehouses in every listing exactly when each one that serves in first place still does in last place among the equally distant |
| ListingOrder.SameServersSamePlanSize | test-allocation-planner.js:95-118 | under that condition part count and score do not depend on the listing either |
| ListingOrder.PlaceMatters | test-allocation-planner.js:95-118 | otherwise there are two listings, and a warehouse that serves one and not the other |
| ListingTally.PartCountIsFreeIff | test-allocation-planner.js:95-118 | the part count of an uncovered order is the same in every listing exactly when, at each distance, every order of the equally distant warehouses ships from equally many |
| ListingTally.ScoreIsFreeIff | test-allocation-planner.js:95-118 | its score is the same exactly when this holds at every distance other than 0 |
| ListingChoice.ChosenComesFirst | test-allocation-planner.js:82-93 | of the nearest smallest covers the one is chosen whose first differing warehouse is listed first |
| ListingChoice.ChoiceIsFreeIff | test-allocation-planner.js:109-118 | the chosen warehouses of a coverable order are the same in every listing exactly when some best cover starts nearer than every other where the two differ |
| RealQuantities.TakeInTurn | test-allocation-planner.js:21-32 | n takes of one material, with the drift of lines and remainder bounded |
| RealQuantities.DriftBound | test-allocation-planner.js:9-32 | lines plus remainder stay above request - 0.001 and at most request + 0.001 n, for all real quantities |
| RealQuantities.DriftIsHalfWayStocks | test-allocation-planner.js:11-29 | for a request on the grid the drift is 0.001 for each stock that is half-way, above the tolerance and below what the earlier stocks leave; so zero exactly when there is none |
| RealQuantities.LeftIsStruckOff | test-allocation-planner.js:21-32 | what is left of such a request is the request less the stocks rounded half down, and never negative |
| RealQuantities.ToleranceOnGrid | test-allocation-planner.js:9-18 | on the grid the tolerance tests are exact comparisons |
| RealQuantities.TakeOnGrid | test-allocation-planner.js:21-32 | on the grid a take is the integer take |
| RealQuantities.ServedOnGrid | test-allocation-planner.js:21-32 | on the grid any number of takes follows the integer closed form with no error |
| RealQuantities.HalfWayShipsTooMuch | test-allocation-planner.js:28-29 | two takes of 0.0015 towards 0.003 ship 0.004 and leave 0.001 |
| Onboarding.Progress.CompleteStep | src/common/common.service.ts:37-72 | the stored list gains the step exactly when it is the next one, also on the first call |
| Onboarding.Progress.GetCurrentStep | src/common/common.service.ts:15-34 | the first step that is not completed |
| Onboarding.CompletedIsPrefix | src/common/common.service.ts:37-72 | after any calls the completed steps are a prefix of the list |
| Onboarding.CallCompletesIffNext | src/common/common.service.ts:61-67 | a call adds its step exactly when it names the next one |
| Onboarding.CurrentStepNoneIff | src/common/common.service.ts:15-34 | there is no current step exactly when all are done, or the next has the empty name |
| Onboarding.CompletedIsLongestInOrder | src/common/common.service.ts:37-72 | the calls complete the longest prefix that occurs among them in order |
| AccountService.CaseFile.Register | src/auth/auth.service.ts:115-159 | a new address gets an unverified INACTIVE account; an existing one is refused or asked to confirm, unchanged |
| AccountService.CaseFile.RegisterWithGoogle | src/auth/auth.service.ts:673-721 | a new address gets a verified account, with a wallet if it is active and eligible |
| AccountService.CaseFile.VerifyOtpCode | src/auth/auth.service.ts:210-228 | carries out its move; a wrong code changes nothing (MoveEffects.WrongCodeChangesNothing), the right one verifies and makes a citizen active with a wallet, others an applicant |
| AccountService.CaseFile.LoginWithGoogle | src/auth/auth.service.ts:610-663 | links the identity, verifies an unverified account, opens a missing wallet of an active one |
| AccountService.CaseFile.EnsureForAccount | src/points-wallet/points-wallet.service.ts:190-210 | an eligible role has at least one wallet afterwards, and none is added to an existing one |
| AccountService.CaseFile.CompleteStep | src/common/common.service.ts:37-72 | records the step and submits the application when none is left |
| AccountService.CaseFile.SubmitForm | src/onboarding/services/factory-onboarding.service.ts:52-171 | a form is accepted exactly in its turn; the last step submits the application |
| AccountService.CaseFile.UploadImage | src/media/media.service.ts:207-323 | one document of each type, while applying or, for a free facility, also while undecided; reaching the required number completes the step |
| AccountService.CaseFile.ReplaceDocument | src/onboarding/services/onboarding-submission.service.ts:655-711 | an own document that is not rejected becomes unread again |
| AccountService.CaseFile.ReuploadRejectedImage | src/media/media.service.ts:65-169 | carries out its move: accepted exactly as MoveEffects.ReuploadAnswersARequest says, it answers one request and releases the account once none is open |
| AccountService.CaseFile.UpdateImage | src/media/media.service.ts:344-396 | the owner of an ACTIVE account exchanges a file; the verdict stays |
| AccountService.CaseFile.DeleteImage | src/media/media.service.ts:408-441 | or deletes the document |
| AccountService.CaseFile.SettleReviewState | src/account-management/account-management.service.ts:810-824 | back under review exactly when it waited and nothing is asked for |
| AccountService.CaseFile.UpdateMediaStatus | src/account-management/account-management.service.ts:591-638 | a verdict under review; acceptance closes the request and may release the account |
| AccountService.CaseFile.RequestReupload | src/account-management/account-management.service.ts:655-699 | carries out its move: accepted exactly as MoveEffects.RequestAsksForOne says, it asks for that document alone and makes the account wait |
| AccountService.CaseFile.ReopenApplication | src/account-management/account-management.service.ts:720-742 | only a rejected application goes back under review |
| AccountService.CaseFile.CancelReuploadRequests | src/account-management/account-management.service.ts:763-798 | withdraws all requests, keeps the verdicts, and settles |
| AccountService.CaseFile.UpdateStatus | src/account-management/account-management.service.ts:852-947 | carries out its move: approval accepts the unread documents and opens the wallet, rejection touches no document (MoveEffects.ApproveAcceptsTheUnread, RejectKeepsEverything); each decision has its own gate |
| AccountService.CaseFile.BlockStatus | src/account-management/account-management.service.ts:957-1009 | only between ACTIVE and BLOCKED |
| AccountService.CaseFile.RowsKeepTheInvariant | src/account-management/account-management.service.ts:591-1009 | whatever methods were called, the rows satisfy the invariant |
| MoveEffects.AcceptedIff | src/account-management/account-management.service.ts:591-1009 | on a followed account each of the sixteen moves is accepted exactly when the stored fields admit it: status, steps done, and the named document's verdict, request and owner |
| MoveEffects.RefusedChangesNothing | src/media/media.service.ts:65-102 | in every state, a move that is not accepted changes nothing |
| MoveEffects.DocumentEffect | src/media/media.service.ts:65-441 | an accepted move leaves every single document as described: the named one changed in the fields the move is for, the others untouched, all of them on approval or cancelling |
| MoveEffects.AccountIsAsDescribed | src/account-management/account-management.service.ts:591-1009 | an accepted move leaves status, confirmation, Google identity, wallet, profile and number of steps done of a followed account as described |
| MoveEffects.OneAppEach | src/auth/auth.service.ts:610-645 | an app admits a role exactly when it is that role's one app |
| MoveEffects.ReuploadAnswersARequest | src/media/media.service.ts:82-102 | a replacement of a rejected document is accepted exactly when the account waits, the document is there and asked for, and the caller owns it; otherwise nothing changes |
| MoveEffects.RequestAsksForOne | src/account-management/account-management.service.ts:655-699 | accepted exactly when the document is rejected and not asked for and the account is under review; it differs afterwards in the request alone, and no other document changes |
| MoveEffects.RejectKeepsEverything | src/account-management/account-management.service.ts:914-916 | whatever the reply, a rejection leaves all documents, wallets, profile and progress as they were |
| MoveEffects.ApproveAcceptsTheUnread | src/account-management/account-management.service.ts:892-947 | an approval accepts the unread documents, keeping type, owner and file, and leaves the others alone |
| MoveEffects.WrongCodeChangesNothing | src/auth/auth.service.ts:213-216 | a wrong code changes nothing, whatever the account |
| MoveEffects.SignUpEffect | src/auth/auth.service.ts:115-159 | an unused address gets its account exactly when the phone number is free |
| MoveEffects.SignUpIsOnce | src/auth/auth.service.ts:673-721 | once there is an account, signing up again changes nothing; only an unconfirmed one that is not Google's alone is asked to confirm |
| MoveHistory.DocumentIsReplayed | src/media/media.service.ts:65-441 | on every run each document is what the accepted moves, one after the other, make of it, independently of the account and the other documents |
| MoveHistory.DocumentGoesBack | src/account-management/account-management.service.ts:591-699 | on every run a stored document was uploaded with its type, its owner gave it its file, and it is asked for, rejected or approved only by a reviewer's accepted move on it, or approved with the application |
| MoveHistory.VerifiedWasConfirmed | src/auth/auth.service.ts:210-228 | on every run, whoever the account belongs to, it is verified only by the right code or by Google |
| MoveHistory.AccountGoesBack | src/auth/auth.service.ts:115-159 | on every run an account was signed up with its role and a free phone number, has a password only from that sign-up and a Google identity only from Google |
| MoveHistory.OnlyEligibleHaveWallets | src/points-wallet/points-wallet.service.ts:190-210 | on every run an account of another role, a driver's or an administrator's, has no wallet |
| MoveHistory.LetInWasApproved | src/account-management/account-management.service.ts:852-947 | on every run an applicant who is let in was approved, and everybody past PENDING_PROFILE has had each form accepted |
| Refusals.RefusalsAreTrue | src/account-management/account-management.service.ts:591-1009 | whatever the state and the move, the reason that a refusal gives is true of the stored fields |
| Refusals.DriversAreDecidedElsewhere | src/account-management/account-management.service.ts:655-742 | a driver's application is not decided, re-opened, blocked or asked about here |
| AccountInvariants.MoveKeepsInv | src/account-management/account-management.service.ts:591-1009 | every move of applicant, reviewer, owner and sign-in keeps the whole invariant |
| AccountInvariants.EveryReachableState | src/account-management/account-management.service.ts:591-1009 | so every state reached from an unused address satisfies it |
| AccountInvariants.StaysReachable | src/auth/auth.service.ts:115-721 | a move leads from a reachable state to a reachable one, along an edge of the life cycle |
| AccountInvariants.WaitsExactlyWhileAsked | src/account-management/account-management.service.ts:591-824 | on every run: NEED_CHANGES exactly while a document is asked for, and only rejected ones are |
| AccountInvariants.VerifiedAndOneWallet | src/auth/auth.service.ts:134-158 | on every run: verified exactly when not INACTIVE; one wallet exactly for an eligible role that is ACTIVE or BLOCKED, never two |
| AccountInvariants.SettledAlikeIff | src/auth/auth.service.ts:646-657 | on every run Google and the emailed code settle an INACTIVE account alike exactly when it is not an administrator's |
| AccountInvariants.SettledAlike | src/auth/auth.controller.ts:42-125 | on every run through the sign-up routes they settle it alike |
| AccountInvariants.OnlyTheseTransitions | src/account-management/account-management.service.ts:852-1009 | on every run a status changes only along eleven edges, each by its own moves; the role never changes |
| LifeCycle.EdgesAreExact | src/account-management/account-management.service.ts:591-1009 | a followed account changes from one status to another on some run exactly along the eleven edges |
| AccountInvariants.ReleaseRulesAgree | src/media/media.service.ts:155-169 | the release inside the re-upload asks the same question as the shared release |
| ReviewProgress.CanAlwaysDecide | src/account-management/account-management.service.ts:744-798 | no dead ends: with n documents, reviewer moves alone reach either decision within n + 2 accepted moves |
| ReviewProgress.ApprovalIsFinal | src/account-management/account-management.service.ts:867-873 | after approval any run moves only between ACTIVE and BLOCKED; every document that is left was there and is APPROVED, and without the owner's own exchanges and deletions all are as they were |
| ReviewProgress.ApprovedStep | src/media/media.service.ts:344-441 | a move touches a document of an account that was let in exactly when its owner, ACTIVE, deletes it or exchanges its file |
| ReviewProgress.ApprovedDocumentTouchedIff | src/media/media.service.ts:76-78 | whoever but the reviewer moves, an accepted document changes exactly when its owner replaces it while undecided, or, once let in, deletes it or exchanges its file |
| ReviewProgress.RejectionKeepsEvidence | src/account-management/account-management.service.ts:64-75 | until re-opened, a rejected application keeps its documents and files, all judged; it is approved only if all are approved, and is then as after any approval |
| ReuploadRequests.WaitsForTheLastAnswer | src/media/media.service.ts:133-169 | replacing the m requested documents in any order keeps the account waiting until exactly the m-th |
| ReuploadRequests.AnswerOne | src/media/media.service.ts:133-169 | one answer closes one request and releases the account only if it was the last |
| ReuploadRequests.AskOne | src/account-management/account-management.service.ts:679-682 | an accepted request adds that one document to those asked for |
| ReuploadRequests.CancelWithdrawsTheQuestion | src/account-management/account-management.service.ts:754-798 | cancelling changes no verdict; approval is then refused, rejection accepted exactly when no document is unread |
| ReviewRuns.CancelCanLeaveNoDecision | src/account-management/account-management.service.ts:754-762 | a run after whose cancelling neither decision is accepted |
| ReviewRuns.OneAnswerIsNotEnough | src/media/media.service.ts:60-64 | a run in which a requested document is replaced and the account goes on waiting |
| ReviewProgress.AskingNeverReopens | src/account-management/account-management.service.ts:649-667 | asking for a document of a rejected application is refused and changes nothing |
| ReviewRuns.ApprovedFileCanBeExchanged | src/media/media.service.ts:344-396 | a run after which an ACTIVE account holds an approved document with a file of the owner's choice |
| ReviewRuns.AcceptedDocumentCanBeReplaced | src/onboarding/services/onboarding-submission.service.ts:655-697 | a run on which the reviewer accepts a document and the applicant replaces it by an unread one |
| ReuploadRequests.DecisionGates | src/account-management/account-management.service.ts:892-913 | a rejected document is all that bars approval, an unread one all that bars rejection |
| DocumentIndex.DocumentIdsByType | src/account-management/account-management.service.ts:421-430 | each type leads to its latest upload |
| DocumentIndex.NothingHiddenIff | src/account-management/account-management.service.ts:427-429 | no document is hidden exactly when no type was uploaded twice |
| DocumentIndex.EveryDocumentIsFound | src/media/media.service.ts:509-517 | on every run each document is found under its type |
| DocumentCount.CheckAgreesIff | src/media/media.service.ts:520-544 | on every run the count and the documented question agree, for a factory or institution: never between its documents step and the submission, exactly if all are approved while reviewed or rejected, otherwise always; for the others always |
| DocumentCount.DocumentsAreCounted | src/media/media.service.ts:509-544 | on every run a factory or institution holds too few documents until its documents step is done, and exactly the required number afterwards until it is let in |
| ReviewRuns.CountedButUnread | src/media/media.service.ts:520-544 | a run after which the documents count as complete although none has been read |
| DocumentCount.UploadedIsUnread | src/media/media.service.ts:243-264 | when the check is made the new document is unread |
| DocumentCount.NobodyCouldApply | src/media/media.service.ts:520-526 | with the documented check no run brings a factory or an institution under review |
| WarehouseMerge.Store.MergeInto | db/migrations/1786100000000-warehouseOdooLinkUniqueMigration.ts:75-88 | one loser: rows repointed, stock lines deleted, handovers cleared, attached rows and the loser deleted, or a violated constraint |
| WarehouseMerge.Store.MergeLosers | db/migrations/1786100000000-warehouseOdooLinkUniqueMigration.ts:74-94 | all losers of one group merged, in any order, or the whole migration cannot commit |
| WarehouseMerge.Store.MergeGroup | db/migrations/1786100000000-warehouseOdooLinkUniqueMigration.ts:52-95 | all losers of one Odoo id, into the winner of the original database |
| WarehouseMerge.Store.Up | db/migrations/1786100000000-warehouseOdooLinkUniqueMigration.ts:43-105 | commits exactly when the whole merge violates no constraint, with the result of all merges at once, and otherwise changes nothing |
| WarehouseMerge.FirstIsWinner | db/migrations/1786100000000-warehouseOdooLinkUniqueMigration.ts:53-73 | the ranking made during the loop picks the warehouse that is first in the original database |
| MergeRanking.WinnerInStages | db/migrations/1786100000000-warehouseOdooLinkUniqueMigration.ts:63-73 | the warehouse kept is the lowest id among the busiest ones whose code was never renamed, or among the busiest if all were |
| MergeRanking.EachRowCountsOnce | db/migrations/1786100000000-warehouseOdooLinkUniqueMigration.ts:57-61 | each row of the five counted tables counts once, for the warehouse it points at |
| MergeRanking.NothingElseCounts | db/migrations/1786100000000-warehouseOdooLinkUniqueMigration.ts:57-61 | a warehouse without such rows has no dependents, whatever else refers to it |
| WarehouseMerge.ClashStays | db/migrations/1779230377325-warehouseMigration.ts:9 | two managers who meet stay together, so a later merge cannot repair the violation |
| WarehouseMerge.UniqueIndexHolds | db/migrations/1786100000000-warehouseOdooLinkUniqueMigration.ts:100-104 | the unique index can always be created |
| MergeOutcome.OneSurvivorEach | db/migrations/1786100000000-warehouseOdooLinkUniqueMigration.ts:52-95 | each Odoo id keeps exactly its first warehouse |
| MergeOutcome.SurvivesIff | db/migrations/1786100000000-warehouseOdooLinkUniqueMigration.ts:44-95 | a warehouse survives, unchanged, exactly when it has no Odoo id or is first of its group |
| MergeOutcome.NoRowIsLostOrDangles | db/migrations/1786100000000-warehouseOdooLinkUniqueMigration.ts:36-88 | the four repointed tables keep every row, each at an existing warehouse of the same Odoo id; stock lines go exactly with their warehouse |
| MergeOutcome.GoesWithALoserIff | db/migrations/1786100000000-warehouseOdooLinkUniqueMigration.ts:86-88 | a handover is cleared, and an offer, rating, complaint or distance deleted, exactly when its warehouse loses |
| MergeOutcome.NothingOrphanedIff | db/migrations/1786100000000-warehouseOdooLinkUniqueMigration.ts:19-20 | nothing is orphaned exactly when no such row refers to a loser |
| MergeOutcome.HandoverIsOrphaned | db/migrations/1784600000000-truckHandoverMigration.ts:58 | a merge that commits, clears a handover and deletes an offer |
| MergeOutcome.WinnerGathersItsGroup | db/migrations/1786100000000-warehouseOdooLinkUniqueMigration.ts:75-80 | a winner ends with exactly the rows that pointed anywhere in its group |
| MergeOutcome.CommitsIff | db/migrations/1786100000000-warehouseOdooLinkUniqueMigration.ts:43-105 | commits exactly when no Odoo id has two managers and every order part refers to a survivor |
| MergeOutcome.WarehouseWithOrdersCanLose | db/migrations/1786100000000-warehouseOdooLinkUniqueMigration.ts:53-73 | a warehouse with any number of orders loses to one with a single truck, and the migration aborts |
| MergeOutcome.CommittedIsSound | db/migrations/1786100000000-warehouseOdooLinkUniqueMigration.ts:43-105 | after a commit every reference holds |
| MergeOutcome.SecondRunChangesNothing | db/migrations/1786100000000-warehouseOdooLinkUniqueMigration.ts:43-105 | a merged database has nothing left to merge |

## Left out

- ListingOrder.SameServersSamePlanSize: a sufficient condition for part count and score; ListingTally has the exact ones.
- Robustness.ListingWithoutTies: a sufficient condition for the whole plan; ListingOrder, ListingTally and ListingChoice have exact ones for the warehouses that serve, part count and score.
- AccountInvariants.EveryReachableState: says little of drivers, who are decided in Odoo, which is not part of this model, and of administrators, who are seeded and do not apply.
- AccountService.CaseFile.VerifyOtpCode: only from INACTIVE; the temporary token that limits it, code cool-downs and expiry are not modelled.
- WarehouseMerge.Store.Up: names, codes beyond their ending and log lines are not modelled; ids are numbers, and the order of Odoo ids and losers is left open.
- Binary floating point: the planner is proved over integers and reals.
- The generator is run to its end and what it yields is collected; laziness has no effect on the callers.
- Archived accounts, passwords, sessions, devices, notes, reasons, notifications and caches.
- Other accounts: a document of somebody else appears as unknown or as not one's own, a taken phone number as a parameter; the forms' own field checks are one parameter, and which types a role may upload is not checked.
- Interleaving: every service method is one step, as the row lock makes it for decisions.
- A wallet that cannot be created, and Cloudinary, mail, Firebase, Redis and Google calls that fail.
- HTTP controllers beyond the status they admit, listings, pagination, statistics and the synchronisation with Odoo.
- The remaining migrations and seeds, and the browser code.
