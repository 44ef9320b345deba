# IncidentDesk control plane: model and proofs

IncidentDesk answers incident questions for teams. Its Go control plane keeps everything in one PostgreSQL
database: investigations with their worker jobs, a proposed GitHub issue per investigation that a person has to
approve, durable conversations, and data-query requests. A demo service pages through logs. This project models
those parts in Dafny and proves what they are for. `dafny verify dfyconfig.toml` checks all of it.

## How it is modelled

Every handler transaction is one atomic step at one reading of a clock that never goes back. Each is written twice:
as a function on table values, and as a method that updates the fields of a class statement by statement and is
proved to leave exactly the state and reply of that function. The files named Rules state, over the tables and the
request alone and apart from both, exactly when each transaction is accepted, what a refusal names and what every
column becomes. The theorems are about runs of the functions, in which any number of users, workers, action runners
and API replicas interleave and every network call may be lost before or after it took effect.

| files | subject |
|---|---|
| Wrappers, Tables | result types; the rows of an investigation, the service and member tables |
| Tasks, Sources, Queue, Actions | admission, cancel, resume; invalidation; claim and callbacks; draft, decide, dispatch |
| TaskRules, QueueRules, ActionRules | what each of these transactions accepts, refuses and leaves, over the tables alone |
| RequestKeys, Roles | one investigation per request key in every run; what losing the approver role stops |
| Tracker, Scans | issues, markers, the paged reconcile scan; what a scan finds in a run while issues are filed |
| Invariants, ControlPlane, Safety | the table invariant, the step relation of the whole system, capacity, coupling, event numbers |
| Dispatching, Reconciliation | at most one POST, what it carries, what success means on the tracker |
| Publications, WorkerRuntime | one publication per generation, freshness, retry bounds, the worker's resend loop |
| Finality, Witnesses, Ambiguity | when success is final; runs from an empty system that show what goes wrong |
| EventStream | cursor replay across disconnects |
| History, Conversations, Dialogue, Contexts, Impasse | bounded context, turns, runs of a conversation, resets, validity, access, conversations that cannot go on |
| TurnRules | what reserving, failing and completing a turn does, what a context quotes, and which request is the anchor in a run |
| Unified, FirstDecision, TurnRequests | the unified endpoint statement by statement, its interleavings, and the requests of a turn |
| ReplyRules | what an uninterrupted request is answered and what it stores |
| LogStore, Paging, Chains, Repeats | the paged log query, one page, chains of its cursors, and levels listed twice |
| QueryRules | which rows a request returns and what its counts are, over the table alone |

## What the proofs turned up

- `succeeded` is not final: a slow runner's last write (actions.go:212-219) can move an action back to `unknown` (`SuccessDemoted` is such a run). It is final exactly when every runner still holding the investigation has settled on an issue (`SucceededForGoodIff`). The set {executing, unknown, succeeded} is final always, and at most one POST holds all the same.
- A new draft keeps the target of the first one (actions.go:65) while its digest uses the current repository, so after a repository change a draft can be saved that nobody can approve (`DraftStuck` is such a run). `DraftApprovableIff` is the exact condition. The moved-target refusal at dispatch (actions.go:184) cannot occur.
- Roles are looked at when an action is handed to a runner and not again when the runner sends, so a POST can go out after its approver lost the role (`PostedAfterRoleLost` is such a run). `LostRoleStopsPosts` says that this is the only way: a POST on that person's approval was with a runner already when the role was lost.
- Reconcile trusts any issue whose text contains the marker; in the run `SuccessOnForeignIssue` the action succeeds on somebody else's issue. The named issue is the created one and the only carrier exactly when no other issue has the tag in its text (`SucceededExactlyOnce`). A listing that grows between two pages can show the same issue twice, which is reported as ambiguous and leaves the action unknown (`AmbiguousByShift` is such a run); `AmbiguousIffCarried` says how many issues have to be filed for that, and with none it does not happen.
- Two things can make the stored context of a turn invalid: the header carries the client's time zone name, whose length nothing checks, and the planner's clarification (natural.go:153-155) is stored unchecked, so it may be blank or too long. The context validates exactly when the header fits and every clarification in the exchanges it keeps is non-blank and at most 2000 characters (`FrozenContextValidIff`). When it does not, the conversation is over: nothing completes a turn any more, not even a reset (`StuckForGood`, `GoesOnIff`; `BlankClarificationSticks` and `LongZoneSticks` are runs that get there in one exchange).
- The log query can return rows twice when a level that has rows is requested twice, which neither it nor the request validation in natural.go excludes: in pages with room for every listed level, every row that is not featured comes as often as its level is listed (`AsOftenAsListed`; `OneRowTwice` and `OtherRowTwice` are the smallest tables). `NoRowTwiceIff` is the exact condition for every first page: a row can also escape because a small first page takes it once and then has no room left for its level.

## Assumptions

- Each transaction is atomic and reads one time; row and advisory locks and isolation below that are taken to provide this. Times of different transactions do not go back.
- Runs start without investigations, turns and requests, with any services and members; generation, attempts, counters and revisions start at 0, leases at null.
- SHA-256 over JSON is injective, so a hash is represented by what it hashes. Ids, fences and markers that the system draws are new; action ids have the shape of a UUID.
- The tracker only gains issues, newest first in its listing, and nobody edits them.
- Models and routers are arbitrary: every output they could give is covered, including none.
- Log tables are unchanged between pages, ids are positive, unique and listed by time and id, and a cursor comes back as it was sent: the guard that refuses a cursor text over 4096 characters (log_store.py:161) is taken not to fire, although with enough distinct levels a cursor can outgrow it. The representative rows of a first page may be any rows of the request, at most half the limit and at least one allowed.

## Model

| member | source | states |
|---|---|---|
| Tasks.Create | backend/internal/app/app.go:345-388 | Admission: an earlier request with the same key answers with its id or a conflict, otherwise service, membership and the 200-per-team quota decide and investigation, job and first event appear together |
| Tasks.Cancel | backend/internal/app/app.go:430-445 | The whole state after a cancel: both rows cancelled, lease dropped, a pending action withdrawn, a dispatched one left alone |
| Tasks.Resume | backend/internal/app/app.go:464-482 | The whole state after a resume: allowed from four statuses only, retry counters and callback cleared, sources refreshed, an undispatched action withdrawn |
| Sources.StatementsAddUp | backend/internal/app/sources.go:33-73 | The sequence of set-oriented updates equals one change per task of the service and none elsewhere |
| Sources.Invalidate | backend/internal/app/sources.go:28-74 | The whole state after an invalidation, with and without removal of derived content |
| Sources.Configure | backend/internal/app/sources.go:89-95 | A repository change always bumps the watermark and withdraws pending actions, even when the repository is the same |
| Sources.SetMember | backend/internal/app/governance.go:196-204 | Granting, changing or removing a role changes that membership only |
| TaskRules.UsedKeyReplays | backend/internal/app/app.go:351-360 | A used key answers its investigation exactly for the same request and a conflict exactly for another one; nothing is stored |
| TaskRules.NewKeyCreates | backend/internal/app/app.go:360-388 | A new key is admitted exactly for an enabled service, a member of its team and fewer than 200 queued or running investigations of the team; every column of the new rows and the key are given, and nothing else changes |
| TaskRules.NewKeyRefused | backend/internal/app/app.go:360-374 | Otherwise the refusal names the first condition that fails |
| TaskRules.CancelRule | backend/internal/app/app.go:426-450 | Any investigation can be cancelled: both rows cancelled, lease gone, an unsent action invalidated, one event, everything else as it was |
| TaskRules.ResumeRule | backend/internal/app/app.go:452-487 | Exactly a finished investigation with information of at most 4000 characters is resumed: queued now on current sources, information appended to the symptom, attempts and stored callback cleared, an unsent action invalidated, one event, the rest as it was |
| TaskRules.InvalidateRule | backend/internal/app/sources.go:28-74 | The watermark of the service moves by one; every task of it, and no other, loses its unsent approval and gains one event, and with remove its report, manifest, action text and event contents |
| TaskRules.ConfigureRule | backend/internal/app/sources.go:75-98 | Saved settings replace repository and switch and always count as a change of sources |
| TaskRules.SetMemberRule | backend/internal/app/governance.go:196-204 | Exactly one membership is set or removed |
| RequestKeys.OneTaskPerKey | backend/internal/app/app.go:345-388 | In every run a subject and key have at most one investigation |
| RequestKeys.RepeatedRequestReplays | backend/internal/app/app.go:351-360 | Once an investigation exists, in every later state its request returns it, any other request under the key conflicts, and neither stores anything |
| Queue.Select | backend/internal/app/queue.go:61 | The row taken is a claimable, unlocked one with the smallest availability time, and none is taken only when there is none |
| Queue.OldestExists | backend/internal/app/queue.go:61 | Whenever any row qualifies, one with the smallest time exists |
| Queue.Claim | backend/internal/app/queue.go:36-89 | The whole state after a claim: sweep of exhausted jobs, capacity check, selection, revocation or lease with the next generation on current sources; QueueRules says over the tables when that hands out a job and what it leaves |
| Queue.CheckFence | backend/internal/app/queue.go:100-115 | The fence passes exactly for the owner and generation that hold an unexpired lease of a running job whose initiator is still a member, and says which part failed |
| Queue.ValidateReport | backend/internal/app/queue.go:218-262 | The validation loops return the first error in checking order |
| Queue.ReferenceErrorMeans | backend/internal/app/queue.go:240-262 | No reference error is reported exactly when every group cites something and only listed evidence |
| Queue.AcceptedIffGrounded | backend/internal/app/queue.go:218-262 | A report is accepted exactly when its evidence ids are distinct and non-empty and every claim cites listed evidence |
| Queue.PublishableIff | backend/internal/app/queue.go:174-190 | No guard fires exactly on current sources, with a callback id, bounded sizes, a final status and a grounded report |
| Queue.Publish | backend/internal/app/queue.go:174-199 | A result is accepted exactly then, and leaves status, report, manifest, callback and hash behind |
| Queue.Operate | backend/internal/app/queue.go:146-208 | When each fenced operation is accepted, and what an accepted one may change: a heartbeat the lease only, a failure back to the queue within 30 seconds, a result the outcome, anything else one more event; never the action, owner or generation |
| Queue.HandleCallback | backend/internal/app/queue.go:127-209 | The whole state after any callback: replay of a stored result, fence, then the operation; QueueRules says over the tables when it acts and what it leaves |
| QueueRules.PickRule | backend/internal/app/queue.go:61 | Over the tables before the sweep: the row picked is due or past its lease, with a try left, unlocked and waiting longest; none is picked only when there is none |
| QueueRules.ClaimGrantsIff | backend/internal/app/queue.go:53-80 | A job is handed out exactly when the owner name is proper, fewer than maxActive jobs run under an unexpired lease, a row was picked and its initiator is a member of its team |
| QueueRules.ClaimRule | backend/internal/app/queue.go:45-89 | The grant names that row, owner, next generation, next attempt and current watermark; the row runs until now plus the lease, and every other row was only swept |
| QueueRules.UngrantedRule | backend/internal/app/queue.go:27-75 | A bad owner changes nothing; a picked job of a former member fails with its investigation; every other claim without a grant only swept |
| QueueRules.WellFoundedIff | backend/internal/app/queue.go:218-262 | The report check accepts exactly distinct non-empty evidence ids with every fact and candidate citing some of them and nothing else |
| QueueRules.FirstBadReference | backend/internal/app/queue.go:240-262 | The first group that cites nothing or something unlisted decides which of the two errors is given |
| QueueRules.CallbackRule | backend/internal/app/queue.go:143-209 | A callback that is acted on is accepted and changes exactly the columns of its operation, with exactly one event of its own kind for all but heartbeats and failures |
| QueueRules.UnactedRule | backend/internal/app/queue.go:127-142 | Every other callback changes nothing: the stored result again is accepted, and a changed body, a lost lease or a lost membership is refused by name |
| QueueRules.ConditionRefused | backend/internal/app/queue.go:146-209 | Under the lease, the refusal names the first condition of the operation that fails |
| Actions.SaveDraft | backend/internal/app/actions.go:30-71 | The whole state after a draft, first or repeated, and every refusal in order; ActionRules says over the tables who may save what |
| Actions.DecideRow | backend/internal/app/actions.go:86-135 | When a decision is accepted (approver, version, current content, configured repository, open state) and that it records the verdict on exactly that version once |
| Actions.Decide | backend/internal/app/actions.go:76-136 | The whole state after approve, reject or reconcile |
| Actions.OldestExists | backend/internal/app/actions.go:165 | Whenever an action is due, one with the smallest update time exists |
| Actions.Select | backend/internal/app/actions.go:165 | The action taken is a due, unlocked one with the smallest update time, and none is taken only when none is due |
| Actions.DispatchRow | backend/internal/app/actions.go:172-197 | The first transaction on the selected action: withdraw, refuse a moved target, or mark it and hand it to a runner; ActionRules says over the tables which of them happens |
| Actions.Dispatch | backend/internal/app/actions.go:161-197 | The whole state after that transaction, and nothing changes when no action is due |
| Actions.Finish | backend/internal/app/actions.go:207-219 | The last transaction overwrites the state without looking at it |
| ActionRules.DraftRule | backend/internal/app/actions.go:30-71 | A draft is saved exactly by a member, of proper size, on a finished report of current sources, naming the version it replaces, with nothing sent yet; every column it stores is given |
| ActionRules.DraftRefused | backend/internal/app/actions.go:30-61 | Otherwise the refusal names the first condition that fails |
| ActionRules.DecideRule | backend/internal/app/actions.go:76-136 | A decision is accepted exactly by an approver of the team on the version shown and an open, current, unmoved action (or an unknown one to reconcile), and records the verdict, who gave it and what on |
| ActionRules.DecideRefused | backend/internal/app/actions.go:86-118 | Otherwise the refusal names the first condition that fails |
| ActionRules.PickRule | backend/internal/app/actions.go:165 | The action picked is approved, or executing or unknown for more than 15 seconds, unlocked and waiting longest; none is picked only when there is none |
| ActionRules.DispatchedIff | backend/internal/app/actions.go:172-187 | A due approval is handed out exactly when version, content, sources, roles and repository still stand, withdrawn exactly when one of the first four fell, and refused otherwise |
| ActionRules.DispatchRule | backend/internal/app/actions.go:172-197 | What each of the three outcomes leaves in the tables and with the runner |
| ActionRules.RedispatchRule | backend/internal/app/actions.go:172-197 | An action whose request may have left is handed out to be looked up, becomes unknown, and is not sent again |
| ActionRules.FinishRule | backend/internal/app/actions.go:207-219 | The outcome is written over any state, column by column |
| Tracker.ContainsMeans | backend/internal/app/actions.go:272-291 | The substring search finds a text exactly when it occurs at some position |
| Tracker.StampIsFound | backend/internal/app/actions.go:259-274 | A created issue passes the read-back check and the reconcile check for its own marker |
| Tracker.StampedBodyCarries | backend/internal/app/actions.go:259-291 | A created issue carries another marker exactly when its own text quotes it: no occurrence straddles the seam |
| Tracker.ScanItems | backend/internal/app/actions.go:284-297 | The inner loop keeps the single match so far and stops at a second one |
| Tracker.Reconcile | backend/internal/app/actions.go:277-304 | The page loop with its early exits settles on the single match in everything it read |
| Tracker.ListedOnOnePage | backend/internal/app/actions.go:279-284 | One listing shows an issue on one page only |
| Tracker.PagesOfFixedListing | backend/internal/app/actions.go:279-301 | On an unchanging tracker the pages read are the newest 500 issues |
| Tracker.ScanIsReconciled | backend/internal/app/actions.go:277-304 | The scan a runner makes page by page, each page ending it or leading to the next, settles on what reconcile does, for any replies |
| Tracker.ReconcileFindsTheOnlyCarrier | backend/internal/app/actions.go:277-310 | On an unchanging tracker, reconcile settles on an issue exactly when it alone among the newest 500 carries the marker |
| Invariants.CreateKeeps | backend/internal/app/app.go:345-388 | Admission keeps the table invariant and only adds an untouched task |
| Invariants.CancelKeeps | backend/internal/app/app.go:430-445 | Cancelling keeps the table invariant |
| Invariants.ResumeKeeps | backend/internal/app/app.go:464-482 | Resuming keeps the table invariant |
| Invariants.SweepKeeps | backend/internal/app/queue.go:45-52 | The retry-limit sweep keeps the table invariant and starts or publishes nothing |
| Invariants.ClaimKeeps | backend/internal/app/queue.go:40-89 | A claim keeps the table invariant and touches one task beyond the sweep |
| Invariants.CallbackKeeps | backend/internal/app/queue.go:127-209 | Every callback keeps the table invariant; only a result changes more than its lease or log |
| Invariants.InvalidateKeeps | backend/internal/app/sources.go:28-74 | After a watermark bump no pending action is left to be stale |
| Invariants.DraftKeeps | backend/internal/app/actions.go:30-71 | A draft describes the current report, sources and repository |
| Invariants.DecideKeeps | backend/internal/app/actions.go:86-135 | An approved action is what its last decision approved, for the configured repository |
| Invariants.DispatchKeeps | backend/internal/app/actions.go:161-197 | Dispatching keeps the table invariant |
| Invariants.FinishKeeps | backend/internal/app/actions.go:212-219 | The unguarded last write keeps a dispatched action among executing, unknown and succeeded |
| Invariants.TimePasses | backend/internal/app/queue.go:45-61 | A job that is not running holds no unexpired lease, at any later time |
| Safety.CoreStep | backend/internal/app/queue.go:26-209 | Every step of the whole system keeps the table invariant, the runner invariant and the capacity |
| Safety.CapacityNeverExceeded | backend/internal/app/queue.go:53-76 | At every instant of every run at most MaxActive running jobs hold an unexpired lease |
| Safety.StatusesAgree | backend/internal/app/queue.go:45-80 | In every reachable state investigation status and job state correspond, and attempts stay at most 4 |
| Safety.CancelledForGood | backend/internal/app/app.go:426-450 | Cancelled is final for investigation and job |
| Safety.EventsWithoutGaps | backend/internal/app/app.go:201-209 | In every reachable state the events of an investigation are numbered exactly 1 to its counter, which never goes back |
| Dispatching.OnePostStep | backend/internal/app/actions.go:161-219 | Every step keeps: posts and runners about to post belong to different investigations and carry what was last approved |
| Dispatching.AtMostOnePost | backend/internal/app/actions.go:159-276 | In every run an investigation causes at most one POST |
| Dispatching.PostedAsApproved | backend/internal/app/actions.go:113-196 | Every POST ever sent carries repository, title and body of the last decision on its action, an approval |
| Dispatching.DispatchedForGood | backend/internal/app/actions.go:57-65 | Once dispatched, an action stays dispatched at its version and gets no further decision |
| Dispatching.DispatchedRefuses | backend/internal/app/actions.go:57-118 | A dispatched action refuses every draft and no decision changes its state |
| Dispatching.OnlyRolesWithdraw | backend/internal/app/actions.go:173-186 | In reachable states a due approved action is handed to a runner, executing and as it stands, exactly when its approver is still an approver and its initiator still a member of the team; otherwise it is invalidated, and the moved-target refusal cannot occur |
| Roles.LostRoleStopsPosts | backend/internal/app/actions.go:172-197 | In every run, from the moment a person is no approver of a team until that person is one again, no runner is started on that person's approval, and a POST that rests on it was already in the hands of a runner before |
| Witnesses.PostedAfterRoleLost | backend/internal/app/actions.go:172-219 | A run from an empty system in which the approver leaves the team between dispatch and POST, and the POST is sent |
| Dispatching.DraftApprovableIff | backend/internal/app/actions.go:106-135 | A reachable draft can be approved exactly when the configured repository is still that of the first draft |
| Dispatching.TargetIsForGood | backend/internal/app/actions.go:65 | Target and marker of an action never change |
| Dispatching.RedraftAfterMove | backend/internal/app/actions.go:64-109 | After a repository change a new draft is saved that nobody can approve |
| Witnesses.DraftStuck | backend/internal/app/actions.go:45-109 | A run from an empty system that ends in such a draft: draft, move, resume, work, draft again |
| Reconciliation.SucceededIsShown | backend/internal/app/actions.go:201-219 | In every reachable state a succeeded action names an issue of its repository that shows its marker |
| Reconciliation.CarriesIff | backend/internal/app/actions.go:259-291 | An issue carries a marker exactly if it was created with it or quotes it |
| Reconciliation.SucceededExactlyOnce | backend/internal/app/actions.go:258-310 | In a reachable state the issue a succeeded action names was created for it and is the only one carrying its marker, exactly when no other issue has the tag in its text |
| Reconciliation.OnlyCarrierWasPosted | backend/internal/app/actions.go:258-276 | That issue was created by the one POST of the investigation, with the content last approved |
| Scans.SettlesAsReconciled | backend/internal/app/actions.go:277-310 | In every run a reconciling runner settles on what reconcile makes of the pages it read; only a failed request can take it away again |
| Scans.FindsTheOnlyCarrier | backend/internal/app/actions.go:277-310 | In every run in which nothing is filed in the repository during the scan, a runner finds an issue exactly when that alone among the newest 500 carries the marker, unless a request fails |
| Scans.AmbiguousIffCarried | backend/internal/app/actions.go:279-297 | In every run a runner that holds a match of an unquoted marker meets a second one exactly when the issues filed in the repository since it saw the match, at place k of page q, carry it onto the page it reads next; with nothing filed, never |
| Ambiguity.AmbiguousByShift | backend/internal/app/actions.go:284-297 | A run from an empty system: reply lost, 99 issues filed, the only issue with the marker found last on page 1, one more issue filed, found again on page 2; the scan is ambiguous and the action ends unknown |
| Witnesses.SuccessOnForeignIssue | backend/internal/app/actions.go:277-310 | A run from an empty system: the POST is lost, somebody files an issue quoting the marker, and the action ends succeeded on that issue |
| Finality.SucceededForGoodIff | backend/internal/app/actions.go:201-219 | In a reachable state a succeeded action is succeeded after every continuation exactly when every runner still holding its investigation has settled on an issue |
| Witnesses.SuccessDemoted | backend/internal/app/actions.go:207-219 | A run from an empty system in which a slow runner demotes a succeeded action |
| Publications.HistoryStep | backend/internal/app/queue.go:174-206 | Every step keeps: publications of a job have strictly increasing generations, and generations stay within four per resume |
| Publications.OnePublicationPerGeneration | backend/internal/app/queue.go:76-199 | Over every run published generations strictly increase |
| Publications.RetryBound | backend/internal/app/queue.go:45-76 | Over every run a job starts at most 4*(1+resumes) generations |
| Publications.OverForGood | backend/internal/app/queue.go:100-142 | Once a generation was published, failed, cancelled or taken over, no callback of it or an earlier one changes any table again |
| Publications.ClaimIsCurrent | backend/internal/app/queue.go:76-80 | A claim starts the next generation on the current watermark |
| Publications.PublishedOnCurrentSources | backend/internal/app/queue.go:174-181 | Between the claim of a generation and its publication no step bumped the watermark of its service |
| WorkerRuntime.AcceptedIsPublished | backend/internal/app/queue.go:129-142 | An accepted result is published with exactly this body, now or before |
| WorkerRuntime.Resend | worker/incident_worker/runtime.py:53-59 | The retry loop stops at the first answer and sends at most three times |
| WorkerRuntime.SendResult | worker/incident_worker/runtime.py:46-59 | Whatever is lost and whatever others do in between, a generation is published at most once; if the call succeeds it is published by this body, and stays so in every later state |
| WorkerRuntime.PublishedForGood | backend/internal/app/queue.go:129-142 | A published body stays published in every later state, and nothing else is ever published for its generation |
| WorkerRuntime.ChangedPayloadRefused | backend/internal/app/queue.go:136-140 | A changed body under a stored callback id is refused and changes nothing |
| EventStream.PageIsNextNumbers | backend/internal/app/queue.go:307-321 | In a log without gaps a page is the next 200 numbers, or all that remain |
| EventStream.SnapshotOnlyBeyondLatest | backend/internal/app/queue.go:289-296 | The reload branch fires exactly for a cursor beyond the latest event |
| EventStream.Show | backend/internal/app/queue.go:311-321 | The rows of one poll are written in order with the events stored under them |
| EventStream.Stream | backend/internal/app/queue.go:289-333 | One connection writes the reload notice exactly for a cursor beyond the latest event, then every page polled, each frame with its event |
| EventStream.WrittenIsExact | backend/internal/app/queue.go:301-333 | The rows of a connection are exactly the events after its cursor, up to the cursor it reaches |
| EventStream.RunIsTimeline | backend/internal/app/app.go:201-209 | Over a run the log of an investigation stays complete and keeps every event under its number |
| EventStream.ShortPageCatchesUp | backend/internal/app/queue.go:307-321 | A page that is not full has caught up with the log |
| EventStream.ReplayIsExact | backend/internal/app/queue.go:263-333 | Across any disconnects during any run, the frames received are the events after the first cursor, in order, once each and none skipped, as the log stores them, and never lead to a reload |
| EventStream.CatchesUp | backend/internal/app/queue.go:307-321 | A connection that polls long enough delivers everything there was when it started |
| History.CollectPairs | backend/internal/app/conversations.go:249-265 | The loop over the newest rows builds the exchanges oldest first, with over-long wrappers replaced |
| History.BuildHistory | backend/internal/app/conversations.go:217-276 | The stored context is the anchor and the exchanges that fit |
| History.TrimKeepsWholePairs | backend/internal/app/conversations.go:272-274 | Trimming keeps a run of newest whole exchanges, at least one, within the total unless only one is left |
| History.TrimDropsTheFewest | backend/internal/app/conversations.go:272-274 | No longer run of newest exchanges would have fitted |
| History.ValidateConversation | backend/internal/app/data_queries.go:39-55 | The accumulating loop decides the stated validation |
| History.ReplyOkIff | backend/internal/app/conversations.go:253-262 | The reply of a turn as the code checks it is a valid message exactly unless it is a clarification that is blank or too long |
| History.KeptArePairs | backend/internal/app/conversations.go:272-274 | What trimming keeps are the exchanges of the newest turns |
| History.BadClarificationBreaks | backend/internal/app/conversations.go:257-262 | A blank clarification, or one over the limit, in the newest exchange makes the next context invalid |
| History.ContextValidIff | backend/internal/app/conversations.go:241-275 | From turns as the code checks them, a context is valid exactly when the header naming the time zone fits in a message and so does every clarification it keeps |
| Conversations.Conversation.Reserve | backend/internal/app/conversations.go:147-213 | The whole state and reply of a reservation: replay, conflicts, retry with a new fence, or a new turn with frozen history; every error leaves nothing behind |
| Conversations.Conversation.Fail | backend/internal/app/conversations.go:379-386 | Only the pending turn with this fence becomes failed |
| Conversations.Conversation.Complete | backend/internal/app/conversations.go:387-428 | The whole state after a completion, or the error and the old state; TurnRules says over the rows when it is stored and what every column becomes |
| Conversations.Conversation.Advance | backend/internal/app/conversations.go:423-425 | The conversation row after a completed turn: revision, title, summary, boundary and sources, column by column in TurnRules |
| TurnRules.StrangerRefused | backend/internal/app/conversations.go:145-152 | Whoever is not the owner, or lost a team or dataset the conversation used, is told nothing and changes nothing |
| TurnRules.KnownKeyIff | backend/internal/app/conversations.go:153-189 | Under a used key: another message conflicts, an answered one replays its answer, and the attempt is granted again exactly when it ended unanswered, at the current revision, with nobody else being answered |
| TurnRules.RetryRule | backend/internal/app/conversations.go:183-189 | A granted retry is the same turn and context, pending for 180 seconds under a new fence; everything else only lapsed |
| TurnRules.NewKeyIff | backend/internal/app/conversations.go:174-196 | A new message is granted exactly at the current revision, with nobody being answered and fewer than 500 turns; the refusal names the first that fails and nothing is stored |
| TurnRules.NewKeyRule | backend/internal/app/conversations.go:190-213 | Every column of the new turn and of its ticket |
| TurnRules.QuotedIff | backend/internal/app/conversations.go:217-248 | A turn is quoted exactly when it was answered after the last reset and fewer than four such turns came later |
| TurnRules.QuotedInOrder | backend/internal/app/conversations.go:217-248 | At most four turns are quoted, oldest first |
| TurnRules.ContextIs | backend/internal/app/conversations.go:241-276 | A context is the anchor's question after a header, then as many of the newest turns as fit in 16000 characters, at least one, each as what the user asked and what was replied |
| TurnRules.FailRule | backend/internal/app/conversations.go:379-386 | Exactly the attempt the ticket stands for becomes failed |
| TurnRules.CompleteIff | backend/internal/app/conversations.go:387-411 | A reply is stored exactly when its attempt is awaited at the current revision by someone who may use conversation and source; the refusal names the first that fails |
| TurnRules.CompleteRule | backend/internal/app/conversations.go:405-428 | Every column after a completed turn: a tool reply becomes the anchor whether or not there was one, a reset without one clears it, any other reply leaves it |
| TurnRules.AnchorIsLastTool | backend/internal/app/conversations.go:412-425 | In every run the anchor is that of the last answered turn with a tool reply, unless a later answered reset had none, and the context starts after the last reset |
| Dialogue.DoneAppends | backend/internal/app/conversations.go:415-425 | Completing a turn with no completed turn after it appends it to the completed history |
| Dialogue.ReserveKeeps | backend/internal/app/conversations.go:147-213 | Every reservation keeps the conversation invariant and changes no completed turn |
| Dialogue.FailKeeps | backend/internal/app/conversations.go:379-386 | Every failure keeps the conversation invariant |
| Dialogue.CompleteKeeps | backend/internal/app/conversations.go:387-428 | Every completion keeps the conversation invariant: summary and boundary remain what the completed turns determine |
| Dialogue.StepKeeps | backend/internal/app/conversations.go:145-428 | Every step of any number of callers keeps the invariant, with tickets and fences accounted for |
| Dialogue.HistoryIsLinear | backend/internal/app/conversations.go:147-212 | In every run exactly one completed turn exists per revision below the current one, sequence order is revision order, and at most one turn is pending, at the current revision |
| Dialogue.CompletedForGood | backend/internal/app/conversations.go:159-169 | A completed turn never changes and its key keeps returning its response, or a conflict for another input |
| Dialogue.SameRevisionSameContext | backend/internal/app/conversations.go:188-211 | All tickets ever issued at one revision, retries included, carry the same history and anchor flag |
| Dialogue.ContextIsOfItsRevision | backend/internal/app/conversations.go:198-204 | The stored context of a turn is the one its base revision determines, whatever was completed since |
| Dialogue.RetryReplaces | backend/internal/app/conversations.go:183-189 | A retry replaces every fence its turn had |
| Dialogue.ReplacedFenceIsDead | backend/internal/app/conversations.go:415-422 | A replaced fence can neither complete nor fail its turn in any later state |
| Contexts.ResetCutsContext | backend/internal/app/conversations.go:407-425 | After a reset turn, contexts built on it hold only later exchanges and an anchor from it or later |
| Contexts.FrozenContextValidIff | backend/internal/app/conversations.go:241-275 | In every run a stored context passes validation exactly when its anchor header and every clarification in the exchanges it keeps fit |
| Impasse.StuckForGood | backend/internal/app/data_queries.go:104-108 | Once the context of the current revision is invalid no turn is ever completed again, in any continuation |
| Impasse.GoesOnIff | backend/internal/app/data_queries.go:104-108 | A conversation with room for a turn has a continuation that completes one exactly when the context of its current revision is valid |
| Impasse.BlankClarificationSticks | backend/internal/app/natural.go:153-155 | A run from an empty conversation: one exchange answered by a blank clarification, after which every next context is refused and no continuation completes a turn |
| Impasse.LongZoneSticks | backend/internal/app/conversations.go:241-246 | The same after one tool question asked in a time zone with an over-long name |
| Contexts.CompletionNarrowsAccess | backend/internal/app/conversations.go:397-425 | A completion narrows who sees the conversation by exactly the source of the reply, and its author still does |
| Contexts.SourceGuardsConversation | backend/internal/app/conversations.go:20-22 | After a turn used a source, nobody without it can reserve or complete in any later state |
| Contexts.NewMessageAdmittedIff | backend/internal/app/conversations.go:150-196 | A new message is admitted exactly at the current revision, with no attempt still leased, below 500 turns |
| Contexts.GrantIsLeased | backend/internal/app/conversations.go:183-211 | A granted attempt keeps every new message out until its lease ends, and not longer |
| Unified.RequestStore.Reserve | backend/internal/app/data_queries.go:105-110 | The first caller of a key inserts its row, every later one reads it unchanged |
| Unified.RequestStore.Choose | backend/internal/app/data_queries.go:130-179 | The choice is valid, keeps to the chosen tool and to a standalone question; the router is needed exactly in automatic mode or with history, and without it an accepted request always gets a choice |
| Unified.RequestStore.CountActive | backend/internal/app/data_queries.go:228-231 | The number of waiting and running queries of a subject |
| Unified.RequestStore.Admit | backend/internal/app/data_queries.go:212-239 | The whole state after admission: an existing row answers, at most five are active, otherwise one row is added |
| Unified.RequestStore.Natural | backend/internal/app/natural.go:81-168 | An investigation of the key answers, otherwise the plan is refused, asks back or creates one |
| Unified.RequestStore.ServeDecision | backend/internal/app/data_queries.go:191-243 | What is served for a stored decision: the state and reply of its statements run one after another, which ReplyRules states by kind of decision |
| Unified.RequestStore.ExecuteUnified | backend/internal/app/data_queries.go:104-243 | An uninterrupted execution equals its statements run one after another; ReplyRules says what that replies and stores |
| ReplyRules.TakenKeyRefused | backend/internal/app/data_queries.go:104-115 | A key used for another request is refused and nothing is stored |
| ReplyRules.StoredQueryReplies | backend/internal/app/data_queries.go:116-129 | An existing data query answers with its id and question to a caller with access, whatever the router says, and nothing is stored |
| ReplyRules.ChosenIff | backend/internal/app/data_queries.go:130-179 | The choice of a new decision over router, mode, history and existing task: which decision, and exactly when there is none and why |
| ReplyRules.UndecidedRefused | backend/internal/app/data_queries.go:130-179 | Without a decision the key stays reserved and the reply says whether the router failed or answered improperly |
| ReplyRules.ExecutionReplies | backend/internal/app/data_queries.go:104-243 | An answer or question back is said exactly when decided; a query accepted exactly for a warehouse decision with access and fewer than five active; a task exactly for an investigation decision that is stored for this question and a member, or planned and admitted; the planner asks back for a new task only; otherwise the first obstacle is named |
| ReplyRules.ExecutionStores | backend/internal/app/data_queries.go:181-243 | The decision is stored under the key with at most one new query or task of exactly this request, and nothing else changes |
| FirstDecision.DecideOk | backend/internal/app/data_queries.go:130-179 | Whatever the router says, a new decision is valid, keeps to the chosen tool and to a standalone question word for word |
| FirstDecision.AdvanceOk | backend/internal/app/data_queries.go:104-243 | Every statement keeps: each execution stands in agreement with the stored decision |
| FirstDecision.StepKeeps | backend/internal/app/data_queries.go:104-243 | Every interleaved step keeps the invariant; stored decisions and created rows never change |
| FirstDecision.RepliesAgree | backend/internal/app/data_queries.go:104-243 | Any two executions of a key served from what is stored asked the same and got the same reply, whatever the router said |
| FirstDecision.DecisionForGood | backend/internal/app/data_queries.go:181-188 | A stored decision is well-formed for its request and never changes |
| FirstDecision.OtherPayloadRefused | backend/internal/app/data_queries.go:110-115 | Once a key is reserved, a different request is refused in every later state |
| FirstDecision.RetryIgnoresRouter | backend/internal/app/data_queries.go:116-129 | Once its data query exists, a retry returns the stored id and question for any router output and writes nothing |
| FirstDecision.ActiveQueriesBounded | backend/internal/app/data_queries.go:228-234 | In every run no subject has more than five queries waiting or running |
| TurnRequests.AttemptsAskTheSame | backend/internal/app/conversations.go:338-345 | All attempts of one turn make the same routing request |
| TurnRequests.AttemptsNeverConflict | backend/internal/app/conversations.go:338-345 | As long as only its own attempts use a turn's key, none is refused as a different request and all served from what is stored get the same reply |
| LogStore.Histogram | demo/log_store.py:125-131 | The counts by level, for exactly the levels present |
| LogStore.Resolve | demo/log_store.py:131-156 | Which rows, levels and counts a request is about, with the background fallback; QueryRules states them over the table |
| LogStore.AppendRows | demo/log_store.py:232-236 | The inner loop advances the level position and skips featured rows |
| LogStore.VisitLevel | demo/log_store.py:216-236 | One level of a page: budget, one row more than shown, continuation flag |
| LogStore.WalkLevels | demo/log_store.py:213-236 | The loop over the levels |
| LogStore.Query | demo/log_store.py:102-257 | The whole answer or error of a call; QueryRules says which requests are answered, which rows come and what the counts are |
| QueryRules.AnsweredIff | demo/log_store.py:102-122 | A request is answered exactly when mode, at most six terms of 1 to 100 characters, at most twelve known levels and the cursor can be read; the refusal names the first that cannot |
| QueryRules.FallsBackIff | demo/log_store.py:139-148 | Browsing for anomalies falls back to every level exactly when no row of the service, in the interval, has an error level |
| QueryRules.WantedRowsCome | demo/log_store.py:102-257 | Reading to the end returns exactly the rows of the table that are of the service, in the interval, match a term if there are any, and have an admitted level: a named one if levels are named, an error level when browsing for anomalies as long as there is one, any otherwise; with any limits and repeated levels |
| QueryRules.WantedRowsComeOnce | demo/log_store.py:102-257 | With no level named twice each of them comes once, and their number is the number returned |
| QueryRules.TotalIs | demo/log_store.py:125-130 | The total is the number of rows of the service in the interval that match the terms |
| QueryRules.MatchedAtLevels | demo/log_store.py:131-138 | With levels named, matched counts each such row once for every time its level is named |
| QueryRules.MatchedWithoutLevels | demo/log_store.py:131-138 | Without levels, matched counts the rows at error levels when browsing for anomalies, and equals the total otherwise |
| Paging.WalkRow | demo/log_store.py:213-236 | A row whose level is visited once is in the page exactly if the page moved past it unfeatured, and without a continuation its level is exhausted |
| Paging.WalkSkips | demo/log_store.py:232-236 | Featured rows, and rows the request is not about, are never added |
| Paging.WalkForward | demo/log_store.py:214-235 | No position moves back behind the cursor |
| Paging.WalkAdvances | demo/log_store.py:206-236 | An empty page with room moves past a row whenever one is open, also at limit 1 and with levels listed twice |
| Paging.LevelsInOrder | demo/log_store.py:139-143 | The levels of the histogram are visited in ascending order, error levels first unless background rows are returned |
| Paging.EligibleDistinct | demo/log_store.py:131-141 | The visited levels are distinct exactly when no level with rows is listed twice |
| Chains.EveryRowOnce | demo/log_store.py:134-250 | Following the cursors for any limits returns no row twice and, at the end, every row of the request exactly once, featured ones included, provided every row of a level listed twice is featured |
| Chains.LaterPageAdvances | demo/log_store.py:206-237 | Every page after the first either is the last or leaves fewer rows to come, also at limit 1 |
| Chains.ChainEnds | demo/log_store.py:206-250 | For M rows and any limits the chain ends within M + 2 pages |
| Chains.PageWithinLimit | demo/log_store.py:103-236 | No page is longer than its limit |
| Chains.DeliveredIsReported | demo/log_store.py:132-153 | The number delivered is matched, or total in the fallback |
| Chains.EveryLevelServed | demo/log_store.py:213-236 | When a page has room for one row per level, each level contributes exactly its quota or all it has left |
| Chains.QuotaIsLargest | demo/log_store.py:213-215 | That quota is the largest for which every level fits beside the sample |
| Repeats.AsOftenAsListed | demo/log_store.py:112-236 | Read in pages with room for one row of every listed level, whatever their limits, a featured row comes once and every other row as often as its level is listed |
| Repeats.ReadAllIs | demo/log_store.py:134-250 | What a chain of cursors returns depends only on the rows of the request, its levels, the sample and the limits |
| Repeats.NoRowTwiceIff | demo/log_store.py:112-250 | For every limit and sample of the first page: no chain returns a row twice exactly when each row whose level is listed several times is featured, or is the earliest of its level and the first page finds room for exactly one visit of that level |
| Repeats.OnlyFeaturedHelps | demo/log_store.py:206-219 | When the first page has room for every listed level, being featured is the only way for such a row to come once |
| Repeats.RepeatedLevelRepeatsRow | demo/log_store.py:112-236 | Already a first page with room for every visit returns the earliest row of a level as often as the level is listed |
| Repeats.OneRowTwice | demo/log_store.py:112-236 | One row of level ERROR, levels [ERROR, ERROR], limit 100: the row comes twice |
| Repeats.OtherRowTwice | demo/log_store.py:184-236 | Two such rows in the default mode, the first featured: it comes once and the other one twice |

## Left out

- HTTP decoding, sign-in, rate limiting, metrics, tracing, object storage and sandbox jobs: no part of these properties.
- Validation of a task before its transaction (scope, time range, time zone, query shape) and the separate membership check in front of cancel, resume and events.
- Event payloads beyond their kind: written once, never read by what is modelled.
- Sources.Invalidate: does not model memories, bad cases and source-change rows, because nothing modelled reads them.
- Queue.HandleCallback: does not model the bodies of the authorize and sandbox replies, because they are copies of rows.
- Tracker.Reconcile: the final read of the match (actions.go:305-309) is a separate step of ControlPlane, because it may fail on its own; issues always have numbers.
- Conversations.Conversation.Complete: does not keep the response status and the dataset id and version inside a summary, because no context is built from them.
- Unified.RequestStore.Natural: folds the length check of natural.go:71-73 into the planner's failure, because lengths there are in bytes.
- LogStore.Query: cursor texts that do not decode, the 4096-character guard included, are one case, because encoding is not modelled.
- Lengths are counted in characters where the code counts bytes (draft sizes, owner, event kind, resume text).
- PostgreSQL locking, skipped rows and deadlocks: a selection may skip any set of locked rows.
- Queue.Claim: the fields of the claim reply other than id, owner, generation, attempt and source version, because they are copied rows and constants.
- Chains.EveryRowOnce: does not promise each row once when a level is listed twice and some row of it is not featured, because the code repeats such rows; Repeats.NoRowTwiceIff is exact.
- Chains.DeliveredIsReported: does not cover levels with rows listed twice, because matched then counts them twice.
- The choice of rare templates, decoding of cursor text, and the SQLite and full-text engines: rows carry the phrases the index would match.
- The conversation list and detail views.
- WorkerRuntime.SendResult: does not model the pauses between attempts, because time passes in the steps of others.
- The worker's step and time budget, plan validation, redaction, rank fusion and the circuit breaker: small and local.
- The worker side of data queries (claim, progress, completion): a smaller repeat of the fenced queue; only its status moves appear.
- SQL guards, the demo server, the web interface, deployment, retention and backup scripts.
