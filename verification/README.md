# Verified models of Rakazo's concurrent and streaming code

Rakazo runs personal agents that are reached through chat. This project models the parts of it whose
correctness depends on interleavings, crashes, cursors and chunk boundaries, and proves what they promise.
Run `dafny verify dfyconfig.toml` (Dafny 4.11) to check all of it.

**Team chat ownership and delivery.** Each inbound provider event is one row. Webhook handlers with their
heartbeats, routine wakes, `queue` calls, deliveries, retries and reconcilers on any number of hosts race on
that row, and a host may crash between any two steps.

- `TeamChatRows`: the row and every guarded write, one function per `updateMany`.
- `TeamChatProtocol`: every process as a program counter over the awaits of the code; `Next` is one step.
- `TeamChatSafety`: the inductive invariant, with no assumption on time.
- `TeamChatDelivery`: life cycle, at most one send, one run per event, the wake nonce as a permanent bar.
- `TeamChatTiming`: with no assumption, exactly which steps shorten a live lease or change a running claim.
- `TeamChatOwnership`: exclusive ownership, for runs with unique stamps, steady heartbeats and leases that
  last as long as somebody relies on them.
- `TeamChatRouting`: no message is dropped, for runs in which claims last and retries keep to their own; and,
  with no assumption, exactly which step drops one.
- `TeamChatReservations`: the same from what a holder knows. If everybody keeps within the reservation it made
  itself and retries leave other reservations alone, a holder is the sole holder.
- `TeamChatRaces`: concrete runs that break one assumption of these theorems each, keep the theorem's others,
  and end in what the theorem rules out.
- `TeamChatConvergence`, `TeamChatRecovery`: after a crash the row gets where it should, and how soon.
- `TeamChatReplies`, `TeamChatHandover`, `TeamChatWoken`: what a delivery pass has sent by its end, where a
  handler leaves its row, and what becomes of queue calls once a wake has committed.
- `TeamChatOrigin`: the walk from a delegated run to the chat message behind it.
- `TeamChatAmbient`, `TeamChatEngagement`, `TeamChatAmbientPass`: what the evaluation of observed channel
  messages computes, the rules it follows, and the pass itself.

**Beside it.** `ChannelMembership` (group invitations), `LocalStack` (the desktop's start/stop serializer),
`ThreadPages` (history by cursor), `ThreadSend` (send and replay of a client nonce), `DockerLines`,
`Handshake` and `PromptEscape` (streaming and escaping), `AutoUpdate` (the desktop updater).

Where the source updates fields or rows step by step, a class or a method with the source's loop is proved
equal to a specification function, and the theorems are about that function. The team chat protocol and the
interleavings of `LocalStack`, `ChannelMembership` and `AutoUpdate` are state machines, whose events are the
atomic steps between awaits.

## What the proofs found

- `retry` (apps/api/src/team-chat-bridge.ts:1276-1289) writes back whatever status it reads, whoever owns the
  row by then. Called for a queue call that never claimed, it can replace another handler's thirty-minute
  lease by its own back-off of at most a minute (`ShortenedLeaseBreaksOwnership`), and it can wipe another call's claim,
  after which the message is retired as taken by a routine that never ran (`ForeignRetryDropsTheMessage`) or
  two calls are about to link it (`WipedClaimHasTwoOwners`). It is the only step that can shorten a live lease
  (`LeaseIsShortened`).
- A queue call that finds its claim gone abandons whatever claim is there by then; this is the only step that
  retires a message nobody took (`WhoMarksWithoutWake`, `LapsedClaimDropsTheMessage`).
- Two deliveries of one event in the same millisecond compute the same reservation stamp and both own the row
  (`EqualStampsBreakOwnership`); a renewal that throws releases the row while its wake is pending
  (`FailedRenewalBreaksOwnership`).
- A YES read for one invitation approves a later one, because the claim looks only at the status; it approves
  the invitation that was read if and only if there was no other in between (`WhichInvitationIsApproved`,
  `StaleAnswerApprovesLaterInvitation`).
- The replay of a send equals the first answer if and only if the thread was not cleared since, every run the
  first answer named still exists and, for a steering message, no run is sourced at the message
  (`ReplayEqualsFirstSend`). A thumbs-up or a steering continuation makes such a run, removing a bot from a
  group takes its runs along, and a routine's run goes if it cannot be enqueued; the nonce is then answered
  with another run, with fewer runs, or not at all and still refused (`ThumbedSteerReplaysAnotherRun`,
  `RemovedBotShortensTheReplay`, `DroppedRunRefusesTheNonce`).
- An event gets a second owner by exactly two kinds of step: a wake that commits while the row is linked, and
  a link while the wake is committed (`WhoBecomesSecondOwner`).
- `cancelSupersededQueuedRuns` never finds anything to cancel when called by a send (`NothingIsSuperseded`),
  and the `if (!safe)` branch of `forwardHandshake` is dead (`Handshake.HandshakeForwarder.ForwardHandshake`).

## Model

| member | source | states |
|---|---|---|
| TeamChatSafety.RunKeeps | apps/api/src/team-chat-bridge.ts:196-1290 | The protocol invariant is inductive over whole runs of any number of processes with crashes, and run ids, ended runs, sent replies, the wake nonce and final statuses are never taken back. |
| TeamChatSafety.StepKeeps | apps/api/src/team-chat-bridge.ts:942-1290 | Every step of every process keeps the invariant, other processes' knowledge included; at most one process is ever about to call `send`. |
| TeamChatSafety.HandlerKeeps | apps/api/src/app.ts:511-597 | No step of the webhook handler, its wake or either of its heartbeats, renewals under way when a heartbeat is stopped included, links a row, posts or undoes anything. |
| TeamChatSafety.DeliverKeeps | apps/api/src/team-chat-bridge.ts:1116-1248 | Every step of a delivery keeps the invariant; in particular the two writes by id only touch rows that are already linked to an ended run, and record the handle of the one send. |
| TeamChatSafety.RetryKeeps | apps/api/src/team-chat-bridge.ts:1250-1290 | The conditional write of a retry never takes a row out of delivering, delivered or ignored, nor its run id or handle. |
| TeamChatDelivery.RowLifeCycle | apps/api/src/team-chat-bridge.ts:383-411 | In every reachable state: a run id is set iff the status is running, delivering or delivered; queueing means agent ownership; a handle means delivering or delivered; delivered means a handle. |
| TeamChatDelivery.LifeCycleIsMonotone | apps/api/src/team-chat-bridge.ts:1195-1290 | In every continuation a run id never changes, delivering never returns to running, delivered and ignored are final. |
| TeamChatDelivery.AtMostOneSend | apps/api/src/team-chat-bridge.ts:1170-1235 | `send` is called at most once per event over every run, calls that throw included, only for an ended run, and a provider handle on the row is the handle of that call. |
| TeamChatDelivery.NeverResent | apps/api/src/team-chat-bridge.ts:1216-1235 | Once a delivery is reserved and nobody is about to send, no continuation sends. |
| TeamChatDelivery.OneRunPerEvent | apps/api/src/team-chat-bridge.ts:1003-1113 | However a claim crashes, expires or is retried, all links of an event over a run are to the same run, the one stored under the agent nonce. |
| TeamChatDelivery.QueueCallsAgreeOnTheRun | apps/api/src/team-chat-bridge.ts:1050-1099 | All queue calls past their send, in any process, hold the same run. |
| TeamChatDelivery.WakeNonceIsAPermanentBar | apps/api/src/team-chat-bridge.ts:993-1065 | Once the wake nonce is committed, the row is not linked and no queue call is past its last check, no continuation ever links the row. |
| TeamChatWoken.WokenEventsGetNoRun | apps/api/src/team-chat-bridge.ts:1015-1065 | Once the wake nonce is committed, no run is stored under the agent nonce and no queue call is past its last look before the send, no continuation makes such a run. |
| TeamChatWoken.QueueCallRetires | apps/api/src/team-chat-bridge.ts:993-1046 | Under any schedule in which nobody else writes the row, a queue call anywhere short of its link whose event a wake has taken retires the row with the routine mark, within the number of its own steps that its next look at the nonce leaves it. |
| TeamChatDelivery.AbandonedRunIsEnded | apps/api/src/team-chat-bridge.ts:1065-1097 | A call that sees the nonce after sending has ended its run before it abandons the row, and the run stays ended. |
| TeamChatTiming.LeaseIsShortened | apps/api/src/team-chat-bridge.ts:1276-1289 | In every reachable state a live deferred lease is shortened by a step iff it is a retry that read the row deferred and whose back-off ends before the lease. |
| TeamChatTiming.ClaimIsTaken | apps/api/src/team-chat-bridge.ts:979-1112 | In every reachable state a running queueing claim is changed by a step iff it is a link, an abandonment or a retry that read the row queueing, whichever call it belongs to. |
| TeamChatTiming.ClaimIsMade | apps/api/src/team-chat-bridge.ts:1003-1030 | In every reachable state a step makes a row queueing iff it is a queue call's claim of a received row without an ownership mark. |
| TeamChatTiming.ReachableClock | apps/api/src/team-chat-bridge.ts:246-322 | In every reachable state captured times lie in the past and no stored lease reaches further than the longest reservation that can be made now. |
| TeamChatOwnership.ExclusiveOwnership | apps/api/src/app.ts:526-596 | With unique stamps, no heartbeat that throws while its wake is pending, and leases that outlive every handler and, once the wake has committed, every call still to link: no event has both a committed wake and a row that reached running, delivering or delivered. |
| TeamChatOwnership.WhoBecomesSecondOwner | apps/api/src/team-chat-bridge.ts:1065-1112 | With no assumption: in every reachable state a step gives the event a second owner iff it is a wake that commits while the row is linked, or a link of a queueing row while the wake is committed. |
| TeamChatOwnership.OwnerStep | apps/api/src/team-chat-bridge.ts:942-1114 | One step keeps the ownership invariant: at most one handler holds the row, it sees it deferred, and after the wake every late linker finds the row out of reach. |
| TeamChatOwnership.HandlerEnters | apps/api/src/team-chat-bridge.ts:246-303 | A new handler gets in only by creating the row, by matching its own stamp, or through a row that is received, observed or expired. |
| TeamChatOwnership.DeferredStays | apps/api/src/team-chat-bridge.ts:507-605 | A deferred row that has not expired is left deferred by every process but a handler that resolves or releases it. |
| TeamChatOwnership.WakeShutsOut | apps/api/src/messaging-inbound.ts:199-260 | The step that commits the wake finds the row deferred and leaves its handler knowing of the wake. |
| TeamChatRouting.RoutineMarkMeansWoken | apps/api/src/team-chat-bridge.ts:979-1046 | If no queue call outlives the claim on the row and retries give back only what their own call claimed, whatever handlers do: a row retired as taken by a routine was really taken, its wake is committed. |
| TeamChatRouting.WhoMarksWithoutWake | apps/api/src/team-chat-bridge.ts:1035-1046 | With no assumption: a step retires a row as taken by a routine that has not woken iff a call that found its own claim gone abandons the claim that is there now. |
| TeamChatRouting.ClaimHoldersSeeQueueing | apps/api/src/team-chat-bridge.ts:1003-1046 | While claims last, a queue call that holds one is the only one, and sees its row queueing until it gives the claim up. |
| TeamChatReservations.SoleHolder | apps/api/src/app.ts:526-596 | When everybody keeps within the reservation it made itself, with unique stamps, steady heartbeats and retries that neither shorten a deferred lease nor give back a claim but their own running one: a handler or linking call is the only one of either kind, a handler sees its row deferred, and no event gets both a wake and an agent run. |
| TeamChatReservations.TimelyClaimsDropNothing | apps/api/src/team-chat-bridge.ts:979-1046 | When every queue call keeps within its own claim, retries included, no message is dropped. |
| TeamChatReservations.ClaimWatchStep | apps/api/src/team-chat-bridge.ts:1003-1113 | A step keeps what calls within their claims know: the row shows the claim until its own deadline or is retired, and there is one such call. |
| TeamChatRaces.EqualStampsBreakOwnership | apps/api/src/team-chat-bridge.ts:274-276 | Equal stamps alone break exclusive ownership: a concrete run. |
| TeamChatRaces.FailedRenewalBreaksOwnership | apps/api/src/app.ts:578-582 | A throwing renewal alone breaks exclusive ownership: a concrete run. |
| TeamChatRaces.ShortenedLeaseBreaksOwnership | apps/api/src/team-chat-bridge.ts:1276-1289 | A stale retry shortens a live lease, and two seconds into a thirty-minute reservation, with everybody within its own reservation, the row has two owners: a concrete run. |
| TeamChatRaces.ForeignRetryDropsTheMessage | apps/api/src/team-chat-bridge.ts:1269-1289 | A stale retry wipes another call's claim and the message ends ignored with neither wake nor run, under all the other assumptions: a concrete run. |
| TeamChatRaces.LapsedClaimDropsTheMessage | apps/api/src/team-chat-bridge.ts:1035-1046 | A call that outlives its claim abandons the next call's, and the message ends ignored with neither wake nor run: a concrete run. |
| TeamChatRaces.WipedClaimHasTwoOwners | apps/api/src/team-chat-bridge.ts:1269-1289 | A stale retry wipes a claim and two calls, both within their own claims, are about to link the row: a concrete run. |
| TeamChatConvergence.ExpiredClaimIsRequeued | apps/api/src/team-chat-bridge.ts:620-648 | From any reachable state with an expired claim and no wake there is a way on: one expiry and one queue call link the row to the run already made, if there is one. |
| TeamChatConvergence.QueueCallLinks | apps/api/src/team-chat-bridge.ts:942-1114 | Under any schedule in which nobody else writes the row and no wake commits before it is linked, a queue call that started on a free, due row has it linked to the run under the agent nonce after nine of its steps. |
| TeamChatConvergence.ExpiredDeliveryIsFinalized | apps/api/src/team-chat-bridge.ts:1207-1235 | From any reachable state with an expired delivery lease and no handle there is a way on: one pass ends in delivered without a send, "unconfirmed", or "silent-failure" for a failed ambient run. |
| TeamChatConvergence.DeliveryPassFinishes | apps/api/src/team-chat-bridge.ts:1116-1235 | Under any schedule in which nobody postpones the delivery or records a late handle, a delivery pass that found an expired lease without a handle has the row delivered after five of its steps. |
| TeamChatReplies.DeliveryPassReplies | apps/api/src/team-chat-bridge.ts:1116-1235 | Under any schedule in which the pass goes on and nobody else writes the row, a delivery pass that started on a due running row whose run has ended is over after seven of its steps: the row is delivered with the handle of the one call of `send`, or, for an ambient run that failed or completed without content, with the mark of silence and nothing sent. |
| TeamChatReplies.RecordedReplyIsCompleted | apps/api/src/team-chat-bridge.ts:1207-1216 | Under the same schedules a pass that finds a reply recorded but not marked, after a crash between the two, has marked it with its own handle after five of its steps, as long as the run has the content that was sent. |
| TeamChatReplies.HandleIsStoredFirst | apps/api/src/team-chat-bridge.ts:1187-1192 | In every reachable state a provider handle is on the row before anybody marks the row delivered with one. |
| TeamChatHandover.HandlerHandsOver | apps/api/src/app.ts:526-596 | A handler that is alone with its row leaves it, once over, retired with the routine mark if its wake committed, and otherwise unmarked and unleased: observed if ambient, received if direct. |
| TeamChatHandover.WhoMakesARequest | apps/api/src/team-chat-bridge.ts:383-411 | In every reachable state only an ambient row is observed, and a step makes an ambient row a request iff it promotes the observed row or gives back a claim. |
| TeamChatHandover.AmbientDecides | apps/api/src/team-chat-bridge.ts:860-897 | From every reachable state the two steps of a decision make an observed row a request with the judge's reason or ignore it, and change nothing else of it. |
| TeamChatRecovery.TeamChatBridge.RecoverExpiredDeferredMessages | apps/api/src/team-chat-bridge.ts:507-605 | The recovery loop over the fetched batch leaves the table as the specified pass does. |
| TeamChatRecovery.PassTouchesTheFetched | apps/api/src/team-chat-bridge.ts:508-522 | A pass changes exactly the oldest twenty expired deferred rows. |
| TeamChatRecovery.InFlightIsSpared | apps/api/src/team-chat-bridge.ts:556-560 | A pass leaves a routing-marked row without a nonce alone while the same bridge has its wake in flight. |
| TeamChatRecovery.SparedWhileInFlight | apps/api/src/team-chat-bridge.ts:556-560 | The same over any number of passes. |
| TeamChatRecovery.Visit | apps/api/src/team-chat-bridge.ts:545-603 | One visit brings a row to its outcome, except that a routing mark without a nonce costs exactly one more. |
| TeamChatRecovery.TwoPasses | apps/api/src/team-chat-bridge.ts:507-605 | Two passes bring at least the oldest twenty pending rows to their outcome. |
| TeamChatRecovery.RecoveryBound | apps/api/src/team-chat-bridge.ts:507-605 | N orphaned expired rows all reach their outcome within 2·⌈N/20⌉ passes; every other row is untouched. |
| TeamChatOrigin.FindExternalOrigin | apps/api/src/team-chat-bridge.ts:726-752 | The walk returns the external message of the nearest ancestor run within the hop limit, and nothing only if no ancestor within the limit has one. |
| TeamChatOrigin.CycleRepeats | apps/api/src/team-chat-bridge.ts:735-736 | Once a run recurs, every later ancestor is one already looked at: giving up is sound. |
| TeamChatAmbientPass.AmbientBridge.EvaluateAmbient | apps/api/src/team-chat-bridge.ts:761-886 | After the loop over conversations every conversation of the oldest hundred observed messages has been treated by the rules of engagement, its rows are split into kept, ignored, taken and at most one promoted, and no other row has changed. |
| TeamChatAmbient.PassIsSplit | apps/api/src/team-chat-bridge.ts:797-905 | The specified pass splits the rows of every conversation it fetched, with at most one promoted trigger each, and touches no other row. |
| TeamChatAmbientPass.AmbientBridge.EvaluateConversation | apps/api/src/team-chat-bridge.ts:797-886 | The body of the loop, with other processes taking rows away while the judge decides, writes exactly the specified evaluation. |
| TeamChatAmbientPass.AmbientBridge.PromoteAmbientTrigger | apps/api/src/team-chat-bridge.ts:888-897 | Promotion wins iff the row is still observed and then changes only that row. |
| TeamChatEngagement.EvaluationFollowsTheRules | apps/api/src/team-chat-bridge.ts:797-886 | The rules, for every row of a conversation: disabled, all are ignored; unheard senders are ignored; within the debounce the rest is kept; a decision not to act ignores what was considered; one to act promotes its trigger with the reason and the last twenty considered messages in order, and ignores the rest, unless the trigger was taken. |
| TeamChatEngagement.EvaluatedIsConsidered | apps/api/src/team-chat-bridge.ts:814-833 | With anybody to be heard at once everybody heard is considered, and otherwise exactly the messages of senders whose roll-up is overdue, in order. |
| TeamChatEngagement.TriggerIsTheTrigger | apps/api/src/team-chat-bridge.ts:834-859 | The decision is about the last acting sender's message among those judged; without one about the first the judge names, and otherwise about the latest. |
| TeamChatAmbientPass.PassFollowsTheRules | apps/api/src/team-chat-bridge.ts:791-886 | A whole pass treats every conversation it fetched by the rules. |
| TeamChatAmbientPass.OldestAreFetched | apps/api/src/team-chat-bridge.ts:764-775 | The pass fetches the oldest observed messages, a hundred if there are that many. |
| TeamChatAmbient.EvaluationSplits | apps/api/src/team-chat-bridge.ts:797-905 | At most one row per conversation is promoted; it is among the at most twenty messages of its own context; evaluated rows are ignored beside a decision to act only if the promotion won. |
| TeamChatAmbient.ConversationsAreIndependent | apps/api/src/team-chat-bridge.ts:791-798 | Evaluating conversations one after the other is evaluating each as if alone. |
| ChannelMembership.Channel.HandleChannelEvent | apps/api/src/messaging-inbound.ts:477-597 | The row of every address after an event: a new participant is invited, one who had left is invited again in the next cycle, every other status stays, and the identity is the current one; anybody else is unchanged, or out if there is a roster and the row was invited or approved. Exactly the linked participants who are new, were gone or are invited under another identity are messaged, once each and in order; when the introduction is due; and who may receive. |
| ChannelMembership.VisitsAreSafe | apps/api/src/messaging-inbound.ts:492-534 | The loop, for any list with repeats, leaves every participant present, approves nobody and adds only participants. |
| ChannelMembership.NewInvitationsAreSent | apps/api/src/messaging-inbound.ts:513-533 | Everyone the loop newly invites whose identity is known is sent an invitation. |
| ChannelMembership.MembershipFollowsTheRoster | apps/api/src/messaging-inbound.ts:488-549 | The same for the loop followed by the sweep, which touches only absent members. |
| ChannelMembership.RowsAfterAnEvent | apps/api/src/messaging-inbound.ts:488-549 | The rows of loop and sweep, address by address, for any list with repeats. |
| ChannelMembership.InvitationsAreExact | apps/api/src/messaging-inbound.ts:492-534 | The loop messages exactly those to be told, each address once, in order. |
| ChannelMembership.FirstAnswerStands | apps/api/src/messaging-inbound.ts:373-397 | An answer approves or declines the invited row, and until the next invitation no other answer changes that. |
| ChannelMembership.LeavingLasts | apps/api/src/messaging-inbound.ts:332-342 | An approved member who leaves, by LEAVE or in the app, stays out until the next invitation, whatever is answered. |
| ChannelMembership.ApprovedOnlyByAnswer | apps/api/src/messaging-inbound.ts:373-397 | Over all interleavings of the writes of channel events, owner commands and the app's own leave, a row is approved only by an approving claim made in its latest cycle, the count of cycles being the number of invitations. |
| ChannelMembership.WhichInvitationIsApproved | apps/api/src/messaging-inbound.ts:353-382 | A claim approves the invitation its answer was read for iff the row was not invited again in between. |
| ChannelMembership.StaleAnswerApprovesLaterInvitation | apps/api/src/messaging-inbound.ts:379-382 | Three channel events, in, out and in again, between which a YES to the first invitation is read and after which it is claimed: it approves the second. |
| LocalStack.LocalStackController.Start | apps/desktop/src/local-stack.ts:334-344 | A start call changes the controller's fields and promises as the scheduler's start event does, and returns that promise. |
| LocalStack.LocalStackController.Stop | apps/desktop/src/local-stack.ts:352-369 | The same for a stop call: join, or void, release and queue. |
| LocalStack.BodiesNeverOverlap | apps/desktop/src/local-stack.ts:334-369 | At most one attempt or stop body runs at a time, and bodies begin in the order of their calls. |
| LocalStack.NeverStuck | apps/desktop/src/local-stack.ts:337-369 | While a promise is open some task can move: the chaining cannot deadlock. |
| LocalStack.StopOutlivesEarlierStarts | apps/desktop/src/local-stack.ts:352-369 | No start requested before a stop runs its body after that stop's, and one that had not begun never runs. |
| LocalStack.LatestStartIsHonoured | apps/desktop/src/local-stack.ts:334-344 | A start returned after the last stop is not voided: once it leaves the queue its body has begun, unless the stop before it was rejected. |
| LocalStack.StartRunsBehindAGoodStop | apps/desktop/src/local-stack.ts:334-369 | Over whole runs: the latest start, behind stops whose bodies did not fail, runs its own body once it leaves the queue. |
| LocalStack.StopHasTheLastWord | apps/desktop/src/local-stack.ts:352-369 | If stop was called last, the last body run once all has settled is the stop that call returned. |
| ThreadPages.LoadMessagePage | apps/api/src/thread-message-pages.ts:7-79 | The rescan loop terminates and returns the specified page for every cursor, target and filter option; no page is longer than the page size, and with peer runs and receipts off a page with a cursor holds a message that is not a receipt. |
| ThreadPages.PageKeepsItsPromise | apps/api/src/thread-message-pages.ts:50-79 | A page shows one stretch of raw rows, full unless it reaches the first row, which is exactly when it has no cursor; what it skipped is hidden or a receipt; and it is not without substance if there is more behind it. |
| ThreadPages.WhatIsHidden | apps/api/src/thread-message-pages.ts:96-119 | Only rows of a peer's run with none of the four kinds of block are hidden. |
| ThreadPages.WindowIsExact | apps/api/src/thread-message-pages.ts:26-33 | A window holds exactly the rows within half a page of the target, cut at the page size from the oldest on. |
| ThreadPages.LoadAllMessages | apps/api/src/thread-message-pages.ts:81-94 | Returns every message of the thread once, in ascending order. |
| ThreadPages.FollowedIsComplete | apps/api/src/thread-message-pages.ts:50-79 | Following the cursor with peer filtering yields each visible message that is not a receipt exactly once and in order. |
| ThreadPages.FollowedWithReceipts | apps/api/src/thread-message-pages.ts:63-74 | With receipts retained, following the cursor yields the whole visible history. |
| ThreadPages.FollowedIsTheHistory | apps/api/src/thread-message-pages.ts:50-79 | With peer runs included, following the cursor yields the history itself. |
| ThreadPages.AroundContainsTarget | apps/api/src/thread-message-pages.ts:26-33 | The window around an existing row contains it despite the cut at the page size. |
| ThreadPages.AroundContinues | apps/api/src/thread-message-pages.ts:34-46 | Continuing from a window's cursor leaves no gap and no repeat. |
| ThreadPages.AroundContinuesFiltered | apps/api/src/thread-message-pages.ts:34-46 | The same with peer filtering, up to receipts. |
| ThreadSend.ThreadStore.SendThreadMessage | apps/api/src/thread-target.ts:561-820 | Replays if it can and then writes nothing; otherwise commits as specified; its answer is what a replay now gives; a failure writes nothing and gives the reason of the refusal. |
| ThreadSend.ThreadStore.CommitSend | apps/api/src/thread-target.ts:580-806 | The transaction with its loops over active runs and targets is the specified commit, with the specified error. |
| ThreadSend.ThreadStore.ActiveByBot | apps/api/src/thread-target.ts:724-740 | Refuses iff a target has an active run that waits for an answer; otherwise maps each target to its first active run. |
| ThreadSend.WhyRefused | apps/api/src/thread-target.ts:603-625 | A send is refused for a taken nonce, else for a target's run that waits for input or a takeover, else for want of a target, and never otherwise. |
| ThreadSend.ReplayEqualsFirstSend | apps/api/src/thread-target.ts:140-205 | However the thread goes on, clearing it, removing bots and dropping runs included, a replay gives the first answer's task, run, seq and ordered run ids iff the thread was not cleared since, every run the first answer named still exists and, for a steer, no run is sourced at the message. |
| ThreadSend.ReplayIn | apps/api/src/thread-target.ts:133-205 | The same for any later state; while the message lives a replay answers iff a run the first answer named exists or one is sourced at the message, always with the first seq, and unless it was a steer with those of the first answer's runs that are left, in order. |
| ThreadSend.NonceSendsOnce | apps/api/src/thread-target.ts:577-578 | Until the thread is cleared a committed nonce is never committed again, to whatever target, and is answered iff there is a run left to answer with. |
| ThreadSend.ClearForgets | packages/db/src/events.ts:248-300 | After clearing, the nonce is not replayed and no send is refused for it. |
| ThreadSend.ClearStopsTheWork | packages/db/src/events.ts:262-285 | Clearing leaves no run of the cleared bots active, keeps every other status, and unsets all sources. |
| ThreadSend.RacingSendersAgree | apps/api/src/thread-target.ts:808-813 | A sender that loses the race for a nonce fails to commit and then answers what the winner answered iff the condition of an equal replay holds. |
| ThreadSend.NothingIsSuperseded | apps/api/src/thread-target.ts:207-231 | A commit changes no earlier run; each target is served, in order, by a run of its own bot; a new run is a queued user run with a task of its own, sourced at the message, for a bot that had nothing active. |
| ThreadSend.ThumbedSteerReplaysAnotherRun | apps/api/src/thread-target.ts:849-872 | A concrete steer whose replay names the reaction's run. |
| ThreadSend.RemovedBotShortensTheReplay | packages/adapters/src/child-bots.ts:379-408 | A concrete send to two bots of a group, the first of which is removed: the replay names another task and run, and one run less. |
| ThreadSend.DroppedRunRefusesTheNonce | packages/adapters/src/executor.ts:754-761 | A concrete steer of a routine's run that is dropped: the send is not answered any more, and its nonce is refused. |
| DockerLines.RunDockerLines | apps/desktop/src/docker-cli.ts:141-183 | For every chunking and interleaving of the two streams, each stream's lines are the non-empty rendered lines of its whole text, in order. |
| DockerLines.DockerOutput.OnData | apps/desktop/src/docker-cli.ts:169-176 | One chunk keeps the books: captured text, carried rest and emitted lines are those of the text so far. |
| DockerLines.SplitAppend | apps/desktop/src/docker-cli.ts:171-173 | Splitting may stop anywhere: complete parts are final, the rest is carried. |
| DockerLines.SplitKeepsTheText | apps/desktop/src/docker-cli.ts:171-173 | The parts joined by newlines are the text, and none holds a newline. |
| DockerLines.RenderingIsExact | apps/desktop/src/docker-cli.ts:163-167 | A rendering is everything after the last carriage return, less the white space at its end and nothing else. |
| DockerLines.LinesAreClean | apps/desktop/src/docker-cli.ts:163-167 | An emitted line is non-empty, has no line break or carriage return, and does not end in white space. |
| Handshake.RunHandshake | apps/web/vite.config.ts:116-142 | For every chunking the handshake is decided at the same chunk, with the same head, as by searching the whole prefix, the cap included. |
| Handshake.HandshakeForwarder.ForwardHandshake | apps/web/vite.config.ts:116-141 | One chunk: the tail search decides as the whole prefix does, and the branch without a boundary is never taken. |
| Handshake.TailSearch | apps/web/vite.config.ts:124-128 | Three carried bytes suffice, for any chunk length. |
| Handshake.CollectingMeansNoBoundary | apps/web/vite.config.ts:116-128 | Still collecting iff everything received is within the cap and holds no boundary. |
| Handshake.ForwardedAtTheFirstBoundary | apps/web/vite.config.ts:129-140 | What is forwarded is the first prefix with a boundary, stripped, and it is within the cap. |
| Handshake.HarmlessResponseIsUnchanged | packages/core/src/node/screen-proxy-response.ts:27-41 | A head without sensitive headers is forwarded byte for byte. |
| Handshake.StrippedHeadIsSafe | packages/core/src/node/screen-proxy-response.ts:27-41 | The forwarded head, split again at its own blank line, is the first line and the harmless ones in order; no line after the first is sensitive, and what follows the head is untouched. |
| Handshake.SafeParts | packages/core/src/node/screen-proxy-response.ts:31-36 | Every header is kept or dropped by itself: the harmless ones stay as often as they occur and in order. |
| Handshake.SensitiveNames | packages/core/src/node/screen-proxy-response.ts:33-35 | A header is dropped iff its name, whatever case and white space it is written with, is one of the three. |
| Handshake.StripIsIdempotent | packages/core/src/node/screen-proxy-response.ts:27-41 | Stripping twice is stripping once. |
| PromptEscape.EscapeIsOnePass | apps/api/src/webhook-inbound.ts:48-50 | The three replacements are one pass over the characters. |
| PromptEscape.UnescapeUndoes | apps/api/src/webhook-inbound.ts:48-50 | Unescaping undoes escaping, for every text. |
| PromptEscape.NoAngleBrackets | apps/api/src/webhook-inbound.ts:48-50 | Escaped text holds no angle bracket. |
| PromptEscape.PayloadStaysInsideTheFence | apps/api/src/webhook-inbound.ts:53-56 | Between the two tags there is no angle bracket, and unescaping gives the payload back. |
| PromptEscape.FormatIsInjective | apps/api/src/webhook-inbound.ts:53-56 | Different payloads never format to the same prompt. |
| AutoUpdate.DesktopUpdateController.Check | apps/desktop/src/auto-update.ts:326-355 | A check call up to its first suspension, with the frozen-feed retry, is the machine's event. |
| AutoUpdate.DesktopUpdateController.InstallLoaded | apps/desktop/src/auto-update.ts:394-408 | An install after its suspension is the machine's event, a throwing installer included. |
| AutoUpdate.AnUpdateGoesThrough | apps/desktop/src/auto-update.ts:281-408 | From any state without an offer under way: a find is offered and downloads by itself, progress is shown within 0 to 100, the download is ready, and one install call starts the installer. |
| AutoUpdate.WhichChecksAskTheFeed | apps/desktop/src/auto-update.ts:336-367 | A check, carried on with a loaded updater, asks the feed iff the updater is idle or failed with the interval over, or the feed was found empty and the user asks or has asked. |
| AutoUpdate.FailuresAreShown | apps/desktop/src/auto-update.ts:147-183 | What each kind of failure leaves: a ready download is given up only for a failed install, an empty feed freezes, being offline is no error except to an install. |
| AutoUpdate.OffersAreKept | apps/desktop/src/auto-update.ts:101-146 | Checking again, an empty answer or another find replaces no download that is under way or ready. |
| AutoUpdate.ShownStateIsConsistent | apps/desktop/src/auto-update.ts:94-183 | Under every interleaving: a percentage iff downloading or ready, within 0 to 100; available, downloading and ready name a version. |
| AutoUpdate.ReadyIsLeftOnlyByFailedInstall | apps/desktop/src/auto-update.ts:394-408 | Over any continuation a ready download is given up only if an install of it threw. |
| AutoUpdate.CloseChecksNeedARetry | apps/desktop/src/auto-update.ts:192-203 | Two feed checks less than a minute apart have a retry between them, and it is the user's: after the feed was last found empty the user called `check`, and nobody had retried since. |
| AutoUpdate.RetriesAnswerAnEmptyFeed | apps/desktop/src/auto-update.ts:326-354 | Every retry is the user's in that sense, though an automatic call may carry it out. |
| AutoUpdate.OnlyTheUserAsks | apps/desktop/src/auto-update.ts:326-328 | The history records a user's call exactly for the calls of `check` the user initiates. |
| AutoUpdate.InstallsAtMostOnce | apps/desktop/src/auto-update.ts:394-408 | The installer is not called again once a call of it has returned. |

## Left out

Team chat:

- The rows of different events are independent and each run of the protocol is about one; the queries over many rows are modelled only for recovery and ambient evaluation.
- One clock for all hosts, read when a process starts or writes; skew between hosts is not modelled.
- `sendUserMessage` and the wake's delivery are each one atomic step, idempotent under their nonce, that throws only without committing; a send that returns no run id is not modelled apart from a throw.
- A process that ends with an error is one that ends; what is logged or rethrown is not modelled.
- Crash recovery says nothing about a received row left with a routing mark: no reconciler releases it, and no theorem here says that every row ends.
- The judge's text is assumed never to equal one of the ownership marks.
- `attempts` and `lastError` are not modelled: a retry delays by any time from 2 to 60 seconds.
- `TeamChatRecovery` and `TeamChatAmbient` loop without concurrent writers, except that any rows may be taken away while the judge decides.
- Delegated replies, transcript mirroring, job enqueueing and the job reconciler, and `PendingTeamChatInbound`.
- Clearing an external conversation's thread, which would remove the wake and agent nonces, is not a step of the team chat protocol.
- ExpiredClaimIsRequeued: shows that a way on exists; `QueueCallLinks` says which other schedules link the row.
- ExpiredDeliveryIsFinalized: shows that a way on exists; `DeliveryPassFinishes` covers every schedule in which no retry postpones the delivery and no late handle is recorded.

Membership and sends:

- WhichInvitationIsApproved: speaks of one row; which of several pending invitations an answer picks is not modelled.
- Answers to agent connections, link codes, confirmations, the fan-out of a channel message to its recipients, and the text of introductions.
- Which of several active runs of a bot comes first is left to creation order; the source does not order that query.
- A thread that goes with its bot or with a dissolved group: nothing is left to replay, and no send reaches it.
- `ContinueOp` in `ThreadSend` may name any message as its source; the pending steering messages themselves are not modelled.
- A commit is one serializable transaction; the check of a replied-to message, mentions, attachments and prompts are not modelled, and a group's targets are given.

Elsewhere:

- LoadMessagePage: needs a page size of at least one; callers pass 100, and a size of zero would rescan for ever.
- `abort`, the body of an attempt, and `reduceStackState` of the local stack.
- Texts, `checkedAt` and the classification of failures in the updater; the clock is assumed not to read zero.
- Timeouts, aborts and exit codes of `runDocker`; chunks are decoded text.
- Lower-casing of header names is done on ASCII letters; the socket events around `forwardHandshake` are not modelled.
- JSON serialization of a payload is a parameter.
- Prisma, SQL, realtime notification, HTTP, authentication, cryptography and every user interface.
