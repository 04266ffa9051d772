# Directory platform: a verified model of its stateful core

The repository runs a multi-tenant directory of listings. Five components meet at the
listing record, and each is a protocol or a cache whose correctness is a statement
about whole runs:

- **Entitlements** (`Machine`, `Entitlements`, `Billing`, `EntitlementRuns`,
  `EntitlementColumns`, `Ticks`, `Reports`, `ReportRuns`, `ReportMeanings`): a table-driven
  state machine of eight statuses and sixteen triggers, fed by at-least-once payment
  reports, a chunked clock tick and operators. It carries deadlines, a denormalised
  listing tier with its event log, and receipts.
- **Claims** (`Claims`, `ClaimRuns`, `ClaimMoves`, `Ownership`, `CodeLimits`, `CodeLife`,
  `CodeMeaning`, `ClaimDesk`): verification codes, disputes, transfers of ownership and the
  moderation queue, with one guard row shared by all claims of a (listing, claimant) pair.
- **Upsert, import, rollback** (`Json`, `Patch`, `PatchLaws`, `PatchExact`, `PatchOps`,
  `Listings`, `ListingStore`, `Upserts`, `ListingLaws`, `ListingColumns`, `Imports`,
  `ImportLaws`, `ImportCounts`, `ImportWorker`, `Rollback`, `RollbackLaws`,
  `RollbackSafety`, `RollbackJob`): the projection of a listing and its JSON Patch, the
  write path, a row loop that resumes after a crash, and an undo built on first-touch
  pre-images.
- **Search index** (`SearchIndex`, `IndexLaws`, `IndexWrites`): stored vectors as a cache,
  with reindex markers, cursors and concurrent drains.
- **Redaction and rate limits** (`Redaction`, `RedactionLaws`, `RedactionScopes`,
  `PatchPrivacy`, `DiffPrivacy`, `Redactor`, `RateLimit`, `RateLimitLaws`).

Conventions. A database table is a map or a sequence in a state value; each
`transaction.atomic` body is one atomic step and the gaps between transactions are
interleaving or crash points. For every command there is a specification function on
state values and, where the source assigns fields or loops, a class method proved to
reach exactly the state the function gives; the lemmas about runs are stated on the
functions. What each function computes is stated beside it in terms that do not name it:
by column, by token, by scope or by status (`EntitlementColumns`, `ReportMeanings`,
`CodeMeaning`, `ClaimMoves`, `ListingColumns`, `PatchOps`, `PatchPrivacy`,
`RedactionScopes`, `IndexWrites`). Time is an integer: seconds in billing and claims, microseconds in the rate
limiter. The clock, the rank-0 tier, which rows another transaction holds
(`skip_locked`), normalisers, the custom-field schema, the suppression list and the
domain-email eligibility inputs are parameters, so the results hold for all of them.

Where code and prose differ the model follows the code:

- A stale tick pick whose row has left the trigger's status raises
  `InvalidTransition`, which the job does not catch (`Ticks.StalePickRefusal`).
- An override to active or past_due may leave no period end, after which a cancel is
  never due; exactly such overrides break the period invariant
  (`EntitlementRuns.PeriodsKnownIffNoBlindMove`).
- Checkout and first invoice do not always commute: from canceled or comped an invoice
  that arrives first pays for the old row, and the checkout after it is refused.
  `ReportRuns.FirstPaymentEitherOrder` gives both results and when they agree, from
  every status.
- `_delete_category` leaves no reindex marker, and children go with their parent; nor
  does `_update_category` when only the order changes, although the order places the
  names in the vector. `IndexLaws.CategoryDeletionKeepsIffSafe` and
  `IndexLaws.CategoryEditKeepsIffSafe` say, from every state, when that is harmless.
- Receipts store 200 characters of an event id, so an event may be taken for another
  (`ReportRuns.FirstDeliveryDropped`).
- Patch pointers are not escaped. `PatchExact.PatchCorrectIffKeysSafe` says for all
  documents when a patch is right; the keys of validated types always are
  (`ListingLaws.AnnouncedChangesApply`).
- A row whose slug normalises to nothing conflicts with itself when it is processed
  again; `ImportLaws.CrashProofIffAddressed` gives the exact boundary.
- An import may rename listings it names by id, and a rollback may then be refused;
  `RollbackLaws.RollbackExact` says when.
- An unexpected failure of a row is counted and ends the batch in two transactions; a
  crash between them lets the batch go on past the row.
- The field schema's docstring says CSV import does not enforce required fields; the
  import does not pass that option, so the model enforces them.

## Model

| member | source | states |
|---|---|---|
| Entitlements.Entitlement.Mutate | billing/entitlements.py:133-266 | Field-by-field mutation of one row for every trigger reaches the specified row or is refused with it; `EntitlementColumns.StepColumns` and `MoveAdmitted` say what that row holds and when it is refused |
| Entitlements.Entitlement.MutateStart | billing/entitlements.py:140-156 | Start and trial start: refused without a tier and the end the kind of start needs; otherwise tier, mode, period and trial end are set and old deadlines and comp columns go |
| Entitlements.Entitlement.MutatePayment | billing/entitlements.py:158-175 | A payment sets the period end, keeps the tier and reference the report leaves out, and clears dunning, grace and cancellation |
| Entitlements.Entitlement.MutateOverride | billing/entitlements.py:233-259 | Override lands on any status with the deadlines that status needs |
| Billing.Store.SetTier | billing/entitlements.py:73-99 | Writes the tier and logs one event exactly when it changes |
| Billing.Store.AdjustVisibility | billing/entitlements.py:381-399 | Without a rank-0 tier expiry hides a published listing and flags it; a perk status clears the flag and republishes only what is still hidden |
| Billing.Store.ApplyTrigger | billing/entitlements.py:314-378 | One transaction: refusals write nothing; otherwise row, tier, visibility and log all move together |
| EntitlementRuns.RunKeeps | billing/entitlements.py:108-266 | In every state of every run: past_due has a dunning end, grace a grace end, trialing a trial end, comp columns only when comped or expired, the expiry flag never on a perk status |
| EntitlementRuns.PeriodsKnownIffNoBlindMove | billing/entitlements.py:240-242 | Every state of a run knows the period end of every trialing, active, past_due and canceled row if and only if no applied move was an override that neither gave nor found one |
| EntitlementRuns.CanceledComesDue | billing/machine.py:191-214 | Without such an override every canceled row becomes due at its period end |
| EntitlementRuns.RunTrials | billing/entitlements.py:133-266 | In every run a row with a trial end has a period end |
| EntitlementRuns.BlindOverrideNeverEnds | billing/entitlements.py:233-259 | In any run from an unsold tenant, such an override followed by a cancel at any time leaves a canceled row on which no clock trigger is ever due |
| EntitlementRuns.TierLogReplays | billing/entitlements.py:73-99 | Over any run the tier events of a listing chain from none, each from the previous one's target, and folding them gives its current tier |
| EntitlementRuns.RunLog | billing/entitlements.py:347-378 | The same for all listings at once, whatever the rank-0 tier at each step |
| EntitlementRuns.TierIsEffective | billing/entitlements.py:62-70 | With a fixed rank-0 tier the stored tier equals the effective tier after every trigger |
| EntitlementRuns.DunningBegins | billing/machine.py:126-147 | Any move into past_due at s starts a lapse with deadline s + 14 days and the paid tier shown |
| EntitlementRuns.LapseBounds | billing/machine.py:39-41 | While only failures and the clock follow: paid tier kept before s + 14 days, no expiry before s + 44 days, no failure moves a deadline |
| EntitlementRuns.ClockMovesBounded | billing/machine.py:126-167 | With no payment at most two clock moves remain, three from trialing |
| EntitlementColumns.StepColumns | billing/entitlements.py:133-266 | For every trigger and prior row, what each of the twenty columns holds after an applied move: set, cleared or kept, column by column |
| EntitlementColumns.TierGivenOrKept | billing/entitlements.py:147-239 | The tier after a start, trial, grant, payment or override is the one its parameters give; after any other move, or when none is given, the prior row's |
| EntitlementColumns.GrantAndRevoke | billing/entitlements.py:214-231 | A grant comps the tier given, with operator, reason and expiry, no period and no lapse, and shows it; a revoke expires the comp, keeps the tier, clears the comp columns and shows rank 0 |
| EntitlementColumns.MoveAdmitted | billing/machine.py:109-214 | A move is applied iff the listing exists, the row's status admits the trigger, the parameters are supplied and, for a clock trigger, the row's own deadline is reached (three days after a trial's end) |
| EntitlementColumns.StepLogs | billing/entitlements.py:304-374 | Which lifecycle events a move logs from each status, at most two with the expiry last; then one tier event iff the shown tier changed, with its cause by trigger, status and rank; then the visibility event |
| EntitlementColumns.VisibilityMoves | billing/entitlements.py:381-399 | A move hides a published listing iff it expires without a rank-0 tier, publishes a hidden one iff it was hidden so and reaches a perk status, and otherwise leaves visibility and flag |
| EntitlementColumns.RepurchaseUndoesHiding | billing/entitlements.py:381-399 | Expiry and a new start, trial or grant give the listing the visibility it had |
| EntitlementColumns.TierIsLastGiven | billing/entitlements.py:314-378 | In every run from an unsold tenant a listing's entitlement is for the tier last bought, granted, paid for or set, and a perk status shows that tier |
| Ticks.QueryIsExact | billing/jobs.py:34-42 | The SQL filter holds iff exactly one clock trigger is due, and that trigger is legal from the row's status |
| Ticks.TriggerFor | billing/jobs.py:45-49 | The loop over clock triggers returns that unique trigger, or none when none is due |
| Ticks.ClockMoveSettles | billing/machine.py:191-224 | After a due clock trigger is applied at a time, nothing is due on the row at that time |
| Ticks.TickAllSettles | billing/jobs.py:52-69 | One chunk settles each picked row and touches no other due row |
| Ticks.EntitlementTransitions | billing/jobs.py:52-69 | The job applies every picked row; the due set shrinks by the chunk |
| Ticks.TicksDrain | billing/jobs.py:52-69 | Repeated calls at one time end with no row due, in as many calls as there are chunks |
| Ticks.StalePickIsSafe | billing/entitlements.py:347-354 | A pick applied after any other moves makes a due legal move or writes nothing |
| Ticks.StalePickRefusal | billing/entitlements.py:347-350 | Which refusal a stale pick gets, in both directions |
| Reports.ApplyBody | billing/reports.py:232-270 | The transaction after the receipt commits all of the specified state or nothing; `ReportMeanings` says what each kind of report commits from each status |
| Reports.ReportPayment | billing/reports.py:71-110 | Replayed exactly for seen or already received events, applied exactly for commits; the tables reached are those `ReportMeanings` describes |
| Reports.Ignore | billing/reports.py:113-122 | An ignored report leaves a receipt and no other change |
| ReportRuns.ReportLeavesReceipt | billing/reports.py:71-122 | After a report, whatever its fate, its receipt exists, and no receipt is ever lost |
| ReportRuns.DuplicatesAreInert | billing/reports.py:71-122 | A run with any duplicates, by the stored 200-character key, ends in the same entitlements, tiers, events and attempts as the run of first deliveries only |
| ReportRuns.FirstDeliveryDropped | billing/reports.py:241-245 | The first delivery of an event id is dropped iff an earlier event of the adapter shares its first 200 characters and one of the two is longer; then it moves nothing |
| ReportMeanings.TakenForAnother | billing/reports.py:98-101 | An event whose shortened id has a receipt is logged as applied under its own id and moves nothing |
| ReportRuns.ExactlyOnce | billing/reports.py:232-279 | For deliveries interleaved at the log check, the receipt check and the apply, abandoned anywhere: no event commits twice and no attempt starts an entitlement twice |
| ReportRuns.OnlyCommitsMove | billing/reports.py:232-279 | Only a recorded commit can change an entitlement, a tier or the event log |
| ReportRuns.StartSpends | billing/reports.py:250-270 | A committed start used an open attempt and closed it |
| ReportRuns.FirstPaymentEitherOrder | billing/reports.py:161-198 | From every status, for every tier key: what the listing holds after checkout and first invoice in each order, the attempt completed in both, and the two agree on status, tier, period end and reference iff the condition for the starting status holds |
| ReportRuns.InvoicePays | billing/reports.py:188-198 | An invoice on a listing that holds anything pays for it, keeping the tier and reference it does not give, or changes nothing when its tier is unknown |
| ReportRuns.CheckoutRefused | billing/reports.py:250-265 | A checkout on a spent attempt or on a listing that is being paid for changes only the attempt |
| ReportMeanings.RefundExpires | billing/reports.py:208-211 | From every status: a fresh refund of a paid listing expires it and shows the rank-0 tier, moving no other listing; of any other it leaves only a receipt |
| ReportMeanings.FailureLapses | billing/reports.py:200-206 | From every status: a failed invoice moves trialing and active to past_due for 14 days with the tier shown, counts in past_due and grace without moving a deadline, and otherwise leaves only a receipt |
| ReportMeanings.CancellationKeepsTier | billing/reports.py:221-226 | A cancellation at the period end leaves the listing canceled with its tier and period end and names who canceled; in grace it expires; elsewhere it leaves only a receipt |
| ReportMeanings.CancellationNowExpires | billing/reports.py:221-227 | A cancellation with immediate effect expires any paid listing and shows the rank-0 tier |
| ReportMeanings.ChangeMovesTier | billing/reports.py:213-219 | A plan change leaves a listing that holds something active on the named tier to the named period end; a missing or unknown tier, a missing period end or nothing held leaves only a receipt |
| ReportMeanings.InvoicePaysUp | billing/reports.py:185-198 | A paid invoice of a listing that holds something pays for the named tier, or for the held one when none is named, and clears every lapse; an unknown tier leaves only a receipt |
| ReportMeanings.CheckoutStarts | billing/reports.py:168-183 | A completed checkout starts the attempt's tier, on trial iff a trial end is given, and spends the attempt with its external reference; where a purchase is in force it only closes the attempt; a spent attempt or a missing date leaves only a receipt |
| ReportMeanings.FirstInvoiceStarts | billing/reports.py:185-194 | An invoice on a listing that holds nothing starts the open attempt's tier, and without an open attempt leaves only a receipt |
| ReportMeanings.StrayReportMovesNothing | billing/reports.py:128-149 | A report of an unknown kind, of an unknown attempt or listing, or whose attempt is on another listing than it names, leaves only a receipt |
| ClaimDesk.Desk.OpenItem | directory/claim_review.py:135-181 | Adds an item only when none is open for the same subject |
| ClaimDesk.Desk.DecideClaimItem | directory/claim_review.py:210-220 | Closes the claim's open dispute and no other item |
| ClaimDesk.Desk.Dispute | directory/claim_review.py:223-248 | The claim is disputed and has an open item |
| ClaimDesk.Desk.RejectLosers | directory/claim_review.py:481-524 | Exactly the other pending claims of the listing that no transaction holds are rejected |
| ClaimDesk.Desk.RetireApproved | directory/claim_review.py:538-544 | Exactly the listing's other approved claims are superseded |
| ClaimDesk.Desk.ApproveClaim | directory/claim_review.py:527-645 | Winner approved, owner assigned, losers rejected, dispute closed when an operator decided |
| ClaimDesk.Desk.ResolveVerified | directory/claim_review.py:648-663 | Unclaimed is approved, claimed is disputed, suspended is left alone |
| ClaimDesk.Desk.Approve | directory/claim_review.py:732-767 | Every refusal in order; a pending claim on an owned listing is disputed, a transfer needs confirmation |
| ClaimDesk.Desk.Reject | directory/claim_review.py:796-856 | Counts the rejection, blocks at the third, closes the dispute, opens the block item |
| ClaimDesk.Desk.QueueCommand | directory/claim_review.py:939-983 | Lifts a lock with its counters, or a block alone |
| ClaimDesk.Desk.SubmitClaim | directory/services.py:1394-1559 | Refuses blocked pairs; falls back to manual; starts verification; disputes on a listing seen claimed |
| ClaimDesk.Desk.StartVerification | directory/services.py:1631-1803 | Sends only past the cooldown, the gap and the window cap; a refused send changes nothing |
| ClaimDesk.Desk.VerifyCode | directory/services.py:1864-1980 | Each refusal in order, then the specified state; `CodeMeaning` says which entry is right and what either does |
| ClaimDesk.Desk.EnterWrongCode | directory/services.py:1920-1977 | Fifth wrong code starts a cooldown and kills the code, third cooldown locks the pair and queues it |
| ClaimRuns.QueueMirrorsState | directory/claim_review.py:135-248 | In every run a claim is disputed iff it has exactly one open dispute item, a pair is locked iff exactly one open lock item, blocked iff exactly one open block item |
| ClaimRuns.QueueMirrors | directory/claim_review.py:939-983 | A queue command always finds its item's state in force and keeps the mirror |
| ClaimRuns.AlreadyClearedIsUnreachable | directory/claim_review.py:958-977 | No run of commands ever decides an item `already_cleared` |
| Ownership.ApprovalSettles | directory/claim_review.py:527-565 | Whatever losers are skipped, an approval leaves exactly the winner approved on its listing and other listings as they were |
| Ownership.OwnershipInvariant | directory/claim_review.py:254-259 | In every reachable state an unsuspended listing is claimed iff it has an owner iff exactly one claim on it is approved, and that claim is the owner's |
| Ownership.OwnersChangeOnlyByTransfer | directory/claim_review.py:732-767 | At every step of every run a sitting owner is replaced only by an operator's approval, with transfer, of a disputed claim, whose claimant becomes the owner |
| CodeLimits.WrongCodesConserved | directory/services.py:1920-1946 | In every run the wrong codes of a pair are 15 per unlock plus 5 per cooldown plus the current entries; entries below 5, cooldowns at most 3, locked iff 3 |
| CodeLimits.FifteenBetweenUnlocks | directory/services.py:1563-1565 | At most 15 wrong codes per pair between unlocks, over any claims and resends |
| CodeLimits.SendsArePaced | directory/services.py:1715-1728 | In every run and under any clock the sends of a pair are 60 seconds apart and the window counter, at most 5, counts the sends since the window start |
| CodeLimits.TenSendsADay | directory/services.py:1566-1568 | Any 24-hour interval holds at most ten sends for a pair, over all its claims |
| CodeLife.CodesDieWithTheirClaim | directory/services.py:1617-1628 | In every run only an open, unproven domain-email claim holds a code |
| CodeLife.FifthWrongCodeStops | directory/services.py:1926-1931 | After the fifth wrong code of a pair, for fifteen minutes of any run that does not lift its lock, no code of any of its claims is looked at, counted or sent |
| CodeLife.CooldownHolds | directory/services.py:1900-1901 | While a pair cools, in every run that does not lift its lock, every code entered on any of its claims, right or wrong, is refused, none is counted and none is sent |
| CodeMeaning.RefusedUnlessAnswerable | directory/services.py:1883-1905 | An entry is looked at iff the claim is open, unproven and by email, the pair is neither locked nor cooling, and a code is held that has not expired; otherwise nothing changes |
| CodeMeaning.EntryDecides | directory/services.py:1909-1922 | If an entry is not refused: the claim becomes proven iff the entry equals the code it holds, its status moves only then, and the attempts grow by one iff they differ |
| CodeMeaning.RightEntryProves | directory/services.py:1909-1920 | A right entry uses up the code and proves the claim: a dispute stays one, a claimed listing makes one, an unclaimed listing goes to the claimant, a suspended one waits |
| CodeMeaning.WrongEntryCounts | directory/services.py:1922-1946 | A wrong entry proves and decides nothing, changes no listing and no other claim, and counts one attempt |
| CodeMeaning.HeldCodeIsLastSent | directory/services.py:1730-1740 | In every run a code a claim holds is the last one sent for it, to its pair, with that send's deadline |
| CodeMeaning.OwnersProveTheLastCode | directory/services.py:1909-1920 | In every run a listing changes hands by a code only if the text entered is that of the last send for the claim, before its deadline, and the new owner is the claimant it was sent to; and an answerable entry proves the claim iff it is that text |
| CodeMeaning.EverySendWasCommanded | directory/services.py:1730-1803 | Every send of a run carries the code, time and deadline of a start or submission of its claim or pair |
| CodeMeaning.RestedPairIsSent | directory/services.py:1715-1784 | In every run a start is sent, and the claim holds the code, when the pair does not cool, its last send is a minute old and the fifth last a day old: the limits refuse no one else |
| CodeMeaning.RestedSubmissionIsSent | directory/services.py:1394-1559 | The same for the claim a submission has just made |
| CodeMeaning.StartOtherwise | directory/services.py:1617-1728 | A start is let through iff the claim is open, unproven and by email; on an ineligible site or a locked pair it falls back to manual review and loses its code; paced down it changes nothing |
| ClaimMoves.BlockHolds | directory/services.py:1394-1559 | In every run a blocked pair submits nothing until an operator unblocks it: every try is refused and its number of claims stays |
| ClaimMoves.RejectionsCounted | directory/claim_review.py:796-856 | In every run the guard counts exactly the operator's rejections of the pair, not lost claims, and a blocked pair has at least three |
| ClaimMoves.BlockColumns | directory/claim_review.py:796-977 | For every command: the rejections grow by one iff it rejects a claim of the pair; the block is set at the third or later, cleared by its unblock, and otherwise kept |
| ClaimMoves.LockColumns | directory/services.py:1922-1946 | For every command: entries, cooldowns, cooldown end and lock move only at a wrong code of the pair, with the fifth and the third cooldown, or all clear at its unlock |
| ClaimMoves.SubmitAdmitted | directory/services.py:1394-1559 | A submission is let through iff the listing exists, it is admissible and the pair is not blocked |
| ClaimMoves.SubmitAdds | directory/services.py:1394-1559 | It adds one unproven claim of its pair, disputed iff the listing was seen claimed, manual when a code cannot be used, and touches no other claim or listing |
| ClaimMoves.DecisionAdmitted | directory/claim_review.py:732-983 | Exactly when an approval, a rejection or a queue command is let through |
| ClaimMoves.ApproveMoves | directory/claim_review.py:481-645 | Status, proof and method of every claim and the listing's owner after an operator's approval, skipped claims included |
| ClaimMoves.RejectMoves | directory/claim_review.py:796-856 | A rejection decides its claim, drops its code and moves no listing and no other claim |
| ClaimMoves.ProofMoves | directory/claim_review.py:648-663 | What a right or wrong code does to every other claim |
| ClaimMoves.ItemsKept | directory/claim_review.py:184-220 | In a mirrored queue a command decides the dispute of the claim it approves or rejects and the item it names, each as itself, and touches no other item |
| ClaimMoves.NewItemsConcern | directory/claim_review.py:135-181 | A new item is open, about the command's claim and its pair, and of the kind the command raises |
| Patch.ComputeDiff | directory/patch.py:76-95 | The loop over sorted keys, with its recursion, produces the specified operations in order |
| PatchLaws.DiffMembers | directory/patch.py:76-95 | A diff holds exactly one operation for each member that differs, at the top or in the five opened objects |
| PatchLaws.DiffEmptyIffSame | directory/patch.py:98-103 | The diff is empty iff the documents are equal up to null and missing members |
| PatchLaws.PatchReachesAfter | directory/patch.py:72-95 | Applied under sections 4.1 to 4.3 of RFC 6902, in any order of its operations, a diff whose changed keys are safe never fails and gives the new document up to null |
| PatchExact.PatchCorrectIffKeysSafe | directory/patch.py:76-95 | For all documents and any order: the diff applies and leads to the new document up to null if and only if no changed key holds a slash, a `~0` or a `~1` |
| PatchExact.SlashKeyPatchesElsewhere | directory/patch.py:79 | A changed key with a slash, in use: the whole diff is one operation, and it applies to another member |
| PatchOps.DiffTellsChanges | directory/patch.py:76-103 | An operation is in the diff iff it tells the change of some member: add what was missing or null, remove what now is, replace the rest, with the new value, looking inside five members where both sides are objects |
| PatchOps.DiffInOrder | directory/patch.py:78 | The operations come in the order of the members they are about |
| ListingStore.Row.ApplyGeo | directory/services.py:547-576 | Accepts or refuses coordinates; a point without both has no precision |
| ListingStore.Row.ApplyPayload | directory/services.py:579-649 | Accepts exactly the valid payloads and writes each given field, merging custom fields key by key; which place a value reaches is `ListingColumns.UpsertReaches` |
| ListingStore.Row.Restore | directory/services.py:950-1002 | Assigns the projection back, leaving media and unprojected state alone |
| ListingStore.Store.ApplyUpsert | directory/services.py:652-766 | Matches by id or slug, creates or updates, reports unchanged iff the diff is empty; failures, a null or taken slug among them, write nothing; the document it leaves is that of `ListingColumns.UpsertReaches` |
| ListingColumns.UpsertReaches | directory/services.py:579-766 | After a successful upsert every place of the row's document (leaves, address, point, contact, the two objects, each custom field, categories) holds the normal form of the payload's own key where it gives one, and what it held before, or in a blank document, otherwise; media, provenance and all other rows stay |
| ListingColumns.BlankDocument | directory/services.py:702-708 | A new listing starts from a blank document that carries only its source |
| ListingColumns.UpsertAddresses | directory/services.py:672-715 | An upsert writes the row its payload names by id or slug, and a new one only when it names none, is complete and is not suppressed; where the row must be new it writes no other |
| ListingColumns.UpdateAcceptedIff | directory/services.py:547-735 | An update is accepted iff the payload is well formed and fits the row, its slug is free and the row need not be new |
| ListingColumns.CreationAcceptedIff | directory/services.py:696-738 | A creation is accepted iff the payload is complete, well formed, with a free slug and the required fields, and not suppressed; the suppression refusal comes exactly when it is complete and listed |
| ListingColumns.StrayIdRefused | directory/services.py:673-682 | An id of no row, or of a row of another type, refuses the payload |
| Upserts.UpsertSound | directory/models.py:477-481 | Every upsert keeps one listing per type and slug |
| Upserts.AppliedTwice | directory/services.py:547-649 | A payload already written is accepted again and changes no field |
| ListingLaws.UpsertAgain | directory/services.py:690-752 | Upserting a just-applied payload is `unchanged` with an empty diff iff it has an id or a slug that normalises to something; otherwise it conflicts |
| ListingLaws.RestoreInvertsProject | directory/services.py:950-1002 | Restoring a projection gives the listing back, except media and what is not projected |
| ListingLaws.SameProjectionSameListing | directory/patch.py:33-69 | Listings with projections equal up to null are equal |
| ListingLaws.AnnouncedChangesApply | directory/services.py:750-765 | In every run of upserts from an empty directory with validated types, the changes an update announces, applied in any order to the projection before it, give the projection after it |
| ListingLaws.RunKeepsFieldKeys | directory/field_schema.py:56 | Every custom field key in every reachable listing has the validated shape |
| ImportWorker.Worker.ProcessRow | directory/importing.py:242-262 | One row's replay, write or refusal is the machine's own sequence of steps |
| ImportWorker.Worker.ProcessChunk | directory/importing.py:210-239 | A pass is the machine run until it stops; done exactly when the batch has left processing |
| ImportLaws.ImportedAgain | directory/services.py:517-533 | Processing a row again changes neither the listings nor the record of touched rows |
| ImportLaws.CrashEquivalence | directory/importing.py:210-284 | For every schedule of claims, steps and crashes: listings are the crash-free ones at the cursor or one row past it, the five counters add up to the rows processed, and a completed batch has exactly the crash-free listings and record |
| ImportCounts.RefusalsExact | directory/importing.py:218-235 | Whatever crashes, the error and suppressed counters equal the crash-free run's at the cursor, and all five add up to it |
| ImportCounts.CountersExact | directory/importing.py:44-49 | Without crashes each of the five counters counts exactly the rows of its own outcome, over any number of passes |
| ImportCounts.ImportMarksWhatItMakes | directory/importing.py:242-262 | A listing an import makes carries the source `csv_import` and was not suppressed; one it changes keeps its source |
| ImportCounts.ReplayCountsAsUpdated | directory/importing.py:44-49 | A row already applied counts as updated and is not written again |
| ImportLaws.PassesComplete | directory/importing.py:64-88 | After any schedule of claims, steps and crashes, wherever it left the worker, passes of any sizes that do not crash complete the batch in a bounded number of steps, with the crash-free result |
| ImportLaws.CrashProofIffAddressed | directory/importing.py:210-284 | When the crash-free run meets only expected outcomes: no schedule fails the batch and every completed one has the crash-free result, if and only if each row that is written has an id or a slug that normalises to something |
| ImportLaws.UnaddressedRowFails | directory/importing.py:226-235 | At any row without one, some schedule with one crash fails the batch |
| ImportLaws.CrashBetweenBumpAndFinish | directory/importing.py:228-235 | A crash between counting an unexpected failure and ending the batch leaves it processing past the row |
| Rollback.RunTracks | directory/services.py:517-533 | After any schedule of an import, crashed, failed or gone on past a failure, every touched row's record is its pre-import projection or that the batch made it, and every other row is as it was |
| RollbackLaws.RollbackExact | directory/services.py:1057-1148 | Rolling back any import, renames included, in any order of its updated rows, gives exactly the rows there were; it is refused exactly when a row still to be restored holds the slug an earlier one gets back |
| RollbackLaws.RollbackInvertsUnrenamed | directory/services.py:1057-1148 | An import that renames no listing named by id rolls back in every order, however it ran |
| RollbackLaws.SwapCannotRollBack | directory/services.py:1129-1134 | An import that swaps two slugs by id is refused its rollback in every order |
| RollbackLaws.RollbackInvertsImports | directory/services.py:1057-1148 | Any stack of imports, each run by any schedule, rolled back in reverse gives exactly the original rows, and is refused exactly when some batch of it clashes |
| RollbackJob.Batches.DoRollback | directory/services.py:1057-1148 | Each refusal, writing nothing; otherwise deletes, restores and nulls the pre-images so it cannot run twice |
| RollbackSafety.RollbackSparesUsedListings | directory/services.py:1084-1127 | A rollback is refused, for that reason, iff a listing the batch made is claimed or has leads; one that goes through deletes exactly the listings the batch made, none of them claimed or with leads |
| RollbackSafety.RestoredSource | directory/services.py:950-1002 | A restored listing has the projection's source, or its own where that has none |
| RollbackSafety.ImportedListingSurvives | directory/services.py:1084-1148 | After any import: a listing from before it is there after its rollback, and one it made is gone only if it is unclaimed and has no leads |
| SearchIndex.SearchStore.DrainReindexMarkers | directory/search.py:155-194 | Recomputes one chunk of the oldest pending marker; `more` holds iff a marker is still pending |
| IndexLaws.ChunkLeaves | directory/search.py:175-181 | A covered id past the cursor is in the chunk, or past its end when the chunk is full |
| IndexLaws.FreshOrScheduled | directory/search.py:146-194 | In every run of writes, deletes, schema edits, creations, edits and deletions of categories, and any interleaved or crashed drains: each vector is fresh or a pending marker covers its listing with the cursor below it, in every state if and only if each edit and deletion of a category was safe |
| IndexLaws.EditFieldsKeeps | directory/services.py:251-259 | A schema edit's marker covers every vector it made stale |
| IndexLaws.RenameKeeps | directory/services.py:398-405 | An edit that changes the name leaves a marker that covers every vector it made stale |
| IndexLaws.CategoryEditKeepsIffSafe | directory/services.py:376-405 | From every state: an edit of name, order or parent keeps the invariant iff it renames, or each listing in the category has the vector the new order gives or is still covered by a pending marker |
| IndexLaws.MoveIsSafe | directory/services.py:376-405 | Moving a category in the tree alone is always safe |
| IndexLaws.ReorderLoses | directory/models.py:101 | A changed order leaves no marker: a fresh vector that depends on the place stays stale |
| IndexLaws.DrainsTerminateFresh | directory/search.py:155-194 | Repeated drains of at least one listing empty the queue in a bounded number of calls, and then every vector is fresh |
| IndexLaws.CategoryDeletionKeepsIffSafe | directory/services.py:429-438 | From every state of the cache: deleting a category keeps the invariant iff each listing in it or below it either has the vector it would have without, or is covered by a pending marker not for a deleted category |
| IndexLaws.SubtreeIsLeast | directory/models.py:86-92 | The cascade takes the category and its descendants and nothing else |
| IndexLaws.ParentDeletionLosesChild | directory/services.py:429-438 | Deleting a parent that holds no listing loses the listings of its child |
| IndexLaws.RenameThenDeleteLoses | directory/services.py:398-438 | Deleting a renamed category before the drain loses the listings the rename had scheduled |
| IndexWrites.FieldsAfter | directory/services.py:223-259 | For every step: a type's fields change only by its own edit, to the edit's value |
| IndexWrites.TagsAfter | directory/services.py:376-438 | For every step: a category's name, order and parent change only by its own edit or creation, and go with a deletion at or above it |
| IndexWrites.EntriesAfter | directory/services.py:652-766 | For every step: a listing's type, text and categories change only by its own write, or by dropping deleted categories |
| IndexWrites.VectorsAfter | directory/search.py:96-125 | For every step: a vector changes only by its listing's write or a drain's recompute of it, and is fresh after both |
| IndexWrites.MarkersAfter | directory/services.py:251-405 | A changed schema leaves one marker for its type, a changed name one for its category, and no other step leaves any |
| IndexWrites.SearchSeesLastText | directory/search.py:96-194 | In every run from an empty index, interleaved and crashing, a listing has the text last written, and once its vector is fresh the vector is the analysis of that text |
| Redactor.NullAt | audit/redaction.py:124-135 | Nulls exactly the values at the path, wildcards included, and lists exactly those places |
| Redactor.RedactPatch | audit/redaction.py:142-160 | Each operation keeps its path and meets the fate `PatchPrivacy.OpMeetsFate` gives it |
| Redactor.RedactEnvelope | audit/redaction.py:163-198 | The whole redaction, pass by pass, reaches the envelope that `RedactionScopes.ScopesGuard` and `PatchPrivacy.PrivateOpsLoseTheirValue` describe |
| PatchPrivacy.OpMeetsFate | audit/redaction.py:138-160 | For any prefixes: an operation whose pointer's pieces begin with a withheld prefix's pieces, or that names a hidden custom field, has a null value and is listed; on all custom fields the hidden members are null and listed; any other is whole and not listed |
| PatchPrivacy.PrivateOpsLoseTheirValue | audit/redaction.py:74-80 | In the envelope, without the contact scope: an operation whose first token is the contact, or any change of the settings, comes out with a null value and is listed; an operation elsewhere is unchanged and not listed; with the scope all are |
| PatchPrivacy.HiddenFieldOps | audit/redaction.py:150-157 | A patched custom field is withheld and listed iff the operator hid it |
| DiffPrivacy.ContactIsPrivate | audit/redaction.py:138-160 | Without the contact scope the redacted `listing.updated` of a diff is the same for any two contacts before and after that differ in the same members |
| RedactionScopes.ScopesGuard | audit/redaction.py:163-198 | In every classified event: a path is listed iff it is present and guarded by a scope not granted, and what is guarded so is null in the output |
| RedactionScopes.TablesByScope | audit/redaction.py:42-68 | The paths each scope guards, told by scope and person instead of by event |
| RedactionScopes.UnclassifiedIsWithheld | audit/redaction.py:184-186 | Without both scopes an event no one classified is withheld in full, and a reviewed one comes through |
| RedactionLaws.RedactIsOnePass | audit/redaction.py:163-198 | The sequence of in-place passes equals one pass that hides the set of uncovered paths, on values and on the list |
| RedactionLaws.RedactHidesExactly | audit/redaction.py:124-198 | Two envelopes redact alike iff they differ only in uncovered values: nothing withheld influences the output and nothing else is lost |
| RedactionLaws.NarrowingGrant | audit/redaction.py:163-198 | A larger grant and then a smaller one equals the smaller |
| RedactionLaws.RedactIdempotent | audit/redaction.py:163-198 | Redacting twice is redacting once, list included |
| RedactionLaws.RedactedListsExactly | audit/redaction.py:124-135 | A document path is listed iff it is present and uncovered |
| RedactionLaws.FullGrantShowsAll | audit/redaction.py:184-186 | Both scopes give the data as it was and an empty list |
| RateLimit.Limiter.RecordHit | audit/ratelimit.py:101-106 | The returned count is the number of hits on the key so far |
| RateLimit.Limiter.Check | audit/ratelimit.py:109-129 | Allowed iff every hit of every group is admitted; otherwise hits are counted up to the first over its limit, which the verdict names |
| RateLimit.AdmitsAtMostLimit | audit/ratelimit.py:86-106 | For every hit sequence at most `limit` hits per rule, subject and window are admitted |
| RateLimit.AdmitsAtMostTwiceLimit | audit/ratelimit.py:86-106 | At most twice the limit in any interval of one window's length |
| RateLimit.FirstBlockOnce | audit/ratelimit.py:121-128 | `first_block` is true on exactly one hit of each window that goes over, and on none of any other |
| RateLimit.RetryAfterLandsLater | audit/ratelimit.py:122 | The wait is between one second and the window, and waiting it out lands in a later window |
| RateLimitLaws.GroupHitsEachRule | audit/ratelimit.py:113-120 | A group hits each of its rules once, in order; one without a value or an address bucket hits none |
| RateLimitLaws.CheckHitsEveryGroup | audit/ratelimit.py:113-120 | A check that nothing stops makes the hits of every group and no others |
| RateLimitLaws.CountersShared | audit/ratelimit.py:76-98 | Two hits share a counter iff they are of the same rule name, window and kind and, for addresses, of one bucket, for anything else of one value |
| RateLimitLaws.CountIsNumberOfHits | audit/ratelimit.py:92-98 | A counter is the number of the hits on its key |
| RateLimitLaws.AdmitsExactly | audit/ratelimit.py:86-129 | Exactly the first `limit` hits of a rule per subject and window are admitted, no fewer |
| RateLimitLaws.RetryAfterIsLeast | audit/ratelimit.py:122 | No shorter wait in whole seconds leaves the window |

## Left out

- Views, forms, templates, adapters, mail and the outbox drain: I/O.
- The dictionary that `_build` fills in loops is given as a function of status and trigger.
- Event payloads beyond name, listing and tier; notices and review reasons.
- Code hashing: the stored hash is modelled by the code, so a check is an equality.
- A missing guard row reads as the fresh row the first lock would create.
- Claim rate limits in front of the commands, consent rows and user creation on submit.
- Suspending a listing: no command in the source does it; suspended listings are initial states.
- Python's equality of booleans with numbers inside JSON documents.
- The state of a JSON document mutated in place: redaction works on a copy, modelled by values.
- `redacted` as a sorted list of dotted strings: modelled by the set of places it names.
- Envelopes whose data is neither an object nor null.
- Rate-limit rules whose window is not a whole number of seconds; times before 1970.
- CSV parsing, `import_once` on an unreadable file, and crashes before the row count is written.
- More than one worker on the same batch.
- Cascading deletion of the provenance rows of other batches; rollback out of order.
- Path redirects, sitemaps, ranking and the tenant's text-search configuration, whose change leaves no marker.
- A recompute that reads rows before another transaction writes them: each recompute is one step.
- Renewal notices, and retention of pre-images by age.
