/** `sendThreadMessage` and `replayExistingSend`: when sending again with the same client nonce
    answers as the first send did. One thread; each commit is one transaction. */
module ThreadSend {
  import opened Wrappers

  /** `Broken` is the status "failed". */
  datatype RunStatus = Queued | Leased | Running | WaitingInput | WaitingTakeover | Completed | Broken | Cancelled

  predicate Active(s: RunStatus) { s in {Queued, Leased, Running, WaitingInput, WaitingTakeover} }

  predicate Steerable(s: RunStatus) { s in {Queued, Leased, Running} }

  datatype Trigger = User | Reaction | FollowUp | Routine | OtherTrigger

  datatype Run = Run(botId: nat, taskId: nat, status: RunStatus, trigger: Trigger, source: Option<nat>)

  /** Runs are kept in creation order; the position is the id, and a deleted run leaves a gap. */
  type Runs = seq<Option<Run>>

  predicate Exists(runs: Runs, i: int) { 0 <= i < |runs| && runs[i].Some? }

  predicate AllExist(runs: Runs, ids: seq<nat>) { forall i :: i in ids ==> Exists(runs, i) }

  /** Messages are kept in creation order; the position is the id, and a deleted message leaves a gap. */
  datatype Message = Message(seqNo: nat, clientNonce: Option<string>, runId: Option<nat>)

  /** `thread.message.created` with its payload, or any other event. A steer's payload has no
      `runIds`. */
  datatype Event = Created(messageId: nat, runIds: Option<seq<nat>>) | OtherEvent

  datatype Db = Db(messages: seq<Option<Message>>, runs: Runs, events: seq<Event>, nextSeq: nat, nextTask: nat)

  datatype SendResult = SendResult(taskId: nat, runId: nat, seqNo: nat, runIds: seq<nat>)

  datatype Error = Conflict | Isolation | DuplicateNonce

  datatype Outcome = Sent(db: Db, result: SendResult) | Rejected(error: Error)

  datatype Answer = Answered(result: SendResult) | Failed(error: Error)

  /** The bot of a bot thread, or the resolved targets of a group send. */
  datatype Target = Bot(botId: nat) | Group(botIds: seq<nat>)

  // ----- the replay -----

  predicate Live(db: Db, m: int) { 0 <= m < |db.messages| && db.messages[m].Some? }

  predicate HasNonce(message: Option<Message>, nonce: string) {
    message.Some? && message.value.clientNonce == Some(nonce)
  }

  function FindNonce(messages: seq<Option<Message>>, nonce: string, from: nat): (r: Option<nat>)
    requires from <= |messages|
    ensures r.Some? ==> from <= r.value < |messages| && HasNonce(messages[r.value], nonce)
    ensures r.None? ==> forall i :: from <= i < |messages| ==> !HasNonce(messages[i], nonce)
    decreases |messages| - from
  {
    if from == |messages| then None
    else if HasNonce(messages[from], nonce) then Some(from)
    else FindNonce(messages, nonce, from + 1)
  }

  /** The newest creation event of a message. */
  function Receipt(events: seq<Event>, m: nat): Option<Event> {
    if events == [] then None
    else
      var last := events[|events| - 1];
      if last.Created? && last.messageId == m then Some(last) else Receipt(events[..|events| - 1], m)
  }

  /** `sendEventRunIds`, without ids that no longer name a run. */
  function ReceiptRuns(db: Db, m: nat): (ids: seq<nat>)
    ensures AllExist(db.runs, ids)
  {
    var receipt := Receipt(db.events, m);
    if receipt.Some? && receipt.value.Created? && receipt.value.runIds.Some?
    then Existing(receipt.value.runIds.value, db.runs) else []
  }

  function Existing(ids: seq<nat>, runs: Runs): (kept: seq<nat>)
    ensures forall i :: i in kept <==> i in ids && Exists(runs, i)
    ensures AllExist(runs, ids) ==> kept == ids
  {
    if ids == [] then []
    else
      assert ids == [ids[0]] + ids[1..] && ids[0] in ids;
      assert forall i :: i in ids <==> i == ids[0] || i in ids[1..];
      (if Exists(runs, ids[0]) then [ids[0]] else []) + Existing(ids[1..], runs)
  }

  predicate SourcedAt(run: Option<Run>, m: nat) { run.Some? && run.value.source == Some(m) }

  /** `sourceRuns`, oldest first. */
  function SourceRuns(runs: Runs, m: nat, n: nat): (ids: seq<nat>)
    requires n <= |runs|
    ensures forall i :: i in ids ==> i < n && SourcedAt(runs[i], m)
    ensures ids == [] <==> forall i :: 0 <= i < n ==> !SourcedAt(runs[i], m)
  {
    if n == 0 then []
    else SourceRuns(runs, m, n - 1) + (if SourcedAt(runs[n - 1], m) then [n - 1] else [])
  }

  /** `sendResult`, for a list that is not empty and names runs. */
  function ResultOf(db: Db, m: nat, ids: seq<nat>): SendResult
    requires Live(db, m) && ids != [] && AllExist(db.runs, ids)
  {
    assert ids[0] in ids;
    SendResult(db.runs[ids[0]].value.taskId, ids[0], db.messages[m].value.seqNo, ids)
  }

  /** `replayExistingSend`. */
  function Replay(db: Db, nonce: Option<string>): Option<SendResult> {
    if nonce.None? || FindNonce(db.messages, nonce.value, 0).None? then None
    else
      var m := FindNonce(db.messages, nonce.value, 0).value;
      var receipt := ReceiptRuns(db, m);
      var sources := SourceRuns(db.runs, m, |db.runs|);
      var stored := db.messages[m].value.runId;
      if receipt != [] then Some(ResultOf(db, m, receipt))
      else if sources != [] then Some(ResultOf(db, m, sources))
      else if stored.Some? && Exists(db.runs, stored.value) then Some(ResultOf(db, m, [stored.value]))
      else None
  }

  // ----- the commit -----

  predicate Works(run: Option<Run>, botId: nat) {
    run.Some? && run.value.botId == botId && Active(run.value.status)
  }

  /** The first active run of a bot. */
  function FirstActive(runs: Runs, botId: nat, from: nat): (r: Option<nat>)
    requires from <= |runs|
    ensures r.Some? ==> from <= r.value < |runs| && Works(runs[r.value], botId)
    ensures r.None? ==> forall i :: from <= i < |runs| ==> !Works(runs[i], botId)
    decreases |runs| - from
  {
    if from == |runs| then None
    else if Works(runs[from], botId) then Some(from)
    else FirstActive(runs, botId, from + 1)
  }

  predicate Pending(run: Option<Run>, bots: seq<nat>) {
    run.Some? && run.value.botId in bots && Active(run.value.status) && !Steerable(run.value.status)
  }

  predicate Blocked(runs: Runs, bots: seq<nat>) { exists r :: r in runs && Pending(r, bots) }

  /** The new run for a bot that has none active. */
  function NewRun(botId: nat, taskId: nat, m: nat): Option<Run> { Some(Run(botId, taskId, Queued, User, Some(m))) }

  /** The loop over the targets: all runs afterwards, and which run serves each bot. */
  function Serve(before: Runs, runs: Runs, bots: seq<nat>, m: nat, task: nat): (Runs, seq<nat>)
    decreases |bots|
  {
    if bots == [] then (runs, [])
    else
      var active := FirstActive(before, bots[0], 0);
      if active.Some? then
        var (rest, ids) := Serve(before, runs, bots[1..], m, task);
        (rest, [active.value] + ids)
      else
        var (rest, ids) := Serve(before, runs + [NewRun(bots[0], task, m)], bots[1..], m, task + 1);
        (rest, [|runs|] + ids)
  }

  /** `cancelSupersededQueuedRuns`. The role of a source message is not looked at, so this cancels
      at least what the original does. */
  function CancelSuperseded(runs: Runs, bots: set<nat>, keep: set<nat>): (r: Runs)
    ensures |r| == |runs| && forall i :: Exists(runs, i) ==> Exists(r, i)
  {
    seq(|runs|, i requires 0 <= i < |runs| =>
      if runs[i].Some? && runs[i].value.botId in bots && runs[i].value.status == Queued
         && runs[i].value.trigger in {User, Reaction} && i !in keep
      then Some(runs[i].value.(status := Cancelled)) else runs[i])
  }

  function BotsOf(runs: Runs, ids: set<nat>): set<nat>
    requires forall i :: i in ids ==> Exists(runs, i)
  {
    set i | i in ids && Exists(runs, i) :: runs[i].value.botId
  }

  /** The runs among `ids` that are new. */
  function Made(ids: seq<nat>, before: nat): set<nat> { set i | i in ids && i >= before }

  function Bots(target: Target): seq<nat> { if target.Bot? then [target.botId] else target.botIds }

  /** A bot thread whose bot is already at work: the message only steers it. */
  predicate Steers(db: Db, target: Target) { target.Bot? && FirstActive(db.runs, target.botId, 0).Some? }

  /** What the transaction does. */
  function Commit(db: Db, nonce: Option<string>, target: Target): Outcome {
    var m := |db.messages|;
    if NonceTaken(db, nonce) then Rejected(DuplicateNonce)
    else if Blocked(db.runs, Bots(target)) then Rejected(Conflict)
    else if Bots(target) == [] then Rejected(Isolation)
    else
      var (runs, ids) := Serve(db.runs, db.runs, Bots(target), m, db.nextTask);
      ServeFacts(db.runs, db.runs, Bots(target), m, db.nextTask);
      var db' := Stored(db, nonce, Steers(db, target), runs, ids);
      Sent(db', ResultOf(db', m, ids))
  }

  /** The rows as the transaction leaves them. */
  function Stored(db: Db, nonce: Option<string>, steer: bool, runs: Runs, ids: seq<nat>): (db': Db)
    requires ids != [] && AllExist(runs, ids) && |db.runs| <= |runs|
    ensures |db'.messages| == |db.messages| + 1 && Live(db', |db.messages|) && AllExist(db'.runs, ids)
  {
    assert ids[0] in ids;
    var made := Made(ids, |db.runs|);
    Db(db.messages + [Some(Message(db.nextSeq, nonce, Some(ids[0])))],
       CancelSuperseded(runs, BotsOf(runs, made), made),
       db.events + [Created(|db.messages|, if steer then None else Some(ids))],
       db.nextSeq + 1, db.nextTask + |runs| - |db.runs|)
  }

  /** One round of the loop over the targets. */
  lemma ServeStep(before: Runs, runs: Runs, bots: seq<nat>, i: nat, ids: seq<nat>, m: nat, task: nat)
    requires i < |bots|
    ensures bots[i] in bots
    ensures var active := FirstActive(before, bots[i], 0);
            var (rest, more) := Serve(before, runs, bots[i..], m, task);
            var (rest', more') :=
              if active.Some? then Serve(before, runs, bots[i + 1..], m, task)
              else Serve(before, runs + [NewRun(bots[i], task, m)], bots[i + 1..], m, task + 1);
            && rest == rest'
            && ids + more == ids + [if active.Some? then active.value else |runs|] + more'
  {
    assert bots[i..][0] == bots[i] && bots[i..][1..] == bots[i + 1..];
  }

  /** Every target is served by a run, old runs stay, and the new ones are queued, sourced at the
      message and for bots that had nothing active. */
  lemma {:induction false} ServeFacts(before: Runs, runs: Runs, bots: seq<nat>, m: nat, task: nat)
    requires before <= runs
    ensures var (after, ids) := Serve(before, runs, bots, m, task);
            && runs <= after && |ids| == |bots| && AllExist(after, ids)
            && (forall i :: |runs| <= i < |after| ==>
                  after[i].Some? && i in ids && FirstActive(before, after[i].value.botId, 0).None?
                  && after[i] == NewRun(after[i].value.botId, task + i - |runs|, m))
            && (forall i :: i in ids ==> i < |before| || |runs| <= i)
            && (forall k :: 0 <= k < |ids| ==> Exists(after, ids[k]) && after[ids[k]].value.botId == bots[k])
    decreases |bots|
  {
    if bots != [] {
      if FirstActive(before, bots[0], 0).Some? {
        ServeFacts(before, runs, bots[1..], m, task);
      } else {
        ServeFacts(before, runs + [NewRun(bots[0], task, m)], bots[1..], m, task + 1);
      }
    }
  }

  /** A new run is made only for a bot with nothing active, so there is never anything to supersede:
      the commit changes no earlier run, and every target is served by a run of its own. */
  lemma NothingIsSuperseded(db: Db, nonce: Option<string>, target: Target)
    requires Commit(db, nonce, target).Sent?
    ensures var (db', result) := (Commit(db, nonce, target).db, Commit(db, nonce, target).result);
            && db.runs <= db'.runs
            && |result.runIds| == |Bots(target)| && AllExist(db'.runs, result.runIds)
            && (forall k :: 0 <= k < |result.runIds| ==>
                  Exists(db'.runs, result.runIds[k]) && db'.runs[result.runIds[k]].value.botId == Bots(target)[k])
            && (forall i :: |db.runs| <= i < |db'.runs| ==>
                  Exists(db'.runs, i) && i in result.runIds && FirstActive(db.runs, db'.runs[i].value.botId, 0).None?
                  && var taskId := db.nextTask + i - |db.runs|;
                     db'.runs[i].value == Run(db'.runs[i].value.botId, taskId, Queued, User, Some(|db.messages|)))
            && db'.nextTask == db.nextTask + |db'.runs| - |db.runs|
  {
    var m := |db.messages|;
    var (runs, ids) := Serve(db.runs, db.runs, Bots(target), m, db.nextTask);
    ServeFacts(db.runs, db.runs, Bots(target), m, db.nextTask);
    var made := Made(ids, |db.runs|);
    var superseded := BotsOf(runs, made);
    forall i | Exists(db.runs, i) && runs[i].value.botId in superseded ensures runs[i].value.status != Queued {
      var j :| j in made && runs[j].value.botId == runs[i].value.botId;
      assert FirstActive(db.runs, runs[j].value.botId, 0).None?;
      assert !Works(db.runs[i], runs[j].value.botId);
    }
    assert CancelSuperseded(runs, superseded, made) == runs;
  }

  /** When a send is refused: for its nonce, which a message has already; because a target bot has a run
      that waits for an answer or a takeover; or because no target was resolved. In this order. */
  lemma WhyRefused(db: Db, nonce: Option<string>, target: Target)
    ensures var taken := nonce.Some? && exists m :: m in db.messages && HasNonce(m, nonce.value);
            var waiting := exists r :: r in db.runs && r.Some? && r.value.botId in Bots(target)
                                       && r.value.status in {WaitingInput, WaitingTakeover};
            && (Commit(db, nonce, target) == Rejected(DuplicateNonce) <==> taken)
            && (Commit(db, nonce, target) == Rejected(Conflict) <==> !taken && waiting)
            && (Commit(db, nonce, target) == Rejected(Isolation) <==> !taken && !waiting && target == Group([]))
  {
    if nonce.Some? && FindNonce(db.messages, nonce.value, 0).Some? {
      assert HasNonce(db.messages[FindNonce(db.messages, nonce.value, 0).value], nonce.value);
    }
    forall r | r in db.runs
      ensures Pending(r, Bots(target))
              <==> r.Some? && r.value.botId in Bots(target) && r.value.status in {WaitingInput, WaitingTakeover}
    {}
  }

  // ----- what may happen to the thread afterwards -----

  /** Another send; a message somebody else posts; a run that a routine, a handoff or another message
      starts; a run that changes status; a thumbs-up; the continuation of a steer that its run never
      took up; a bot that is removed, with all its runs; a routine's run that is dropped because it
      could not be enqueued; the clearing of the thread (which cancels the active runs of one bot, or
      of all in a group); or any other event. */
  datatype Op =
    | SendOp(nonce: Option<string>, target: Target)
    | PostOp(postNonce: Option<string>, runIds: Option<seq<nat>>)
    | StartOp(botId: nat, trigger: Trigger, source: Option<nat>)
    | StatusOp(run: nat, status: RunStatus)
    | ReactOp(message: nat, botId: nat)
    | ContinueOp(message: nat, botId: nat)
    | RemoveBotOp(botId: nat)
    | DropOp(run: nat)
    | ClearOp(only: Option<nat>)
    | NoteOp

  predicate NonceTaken(db: Db, nonce: Option<string>) {
    nonce.Some? && FindNonce(db.messages, nonce.value, 0).Some?
  }

  function Spawn(db: Db, trigger: Trigger, source: Option<nat>, botId: nat): Db {
    db.(runs := db.runs + [Some(Run(botId, db.nextTask, Queued, trigger, source))],
        events := db.events + [OtherEvent], nextTask := db.nextTask + 1)
  }

  /** `clearThread`: messages and events go, active runs are cancelled, and deleting a message unsets
      the source of its runs. Sequence numbers go on. */
  function Clear(db: Db, only: Option<nat>): Db {
    db.(messages := seq(|db.messages|, i => None),
        runs := seq(|db.runs|, i requires 0 <= i < |db.runs| => ClearedRun(db.runs[i], only)),
        events := [OtherEvent])
  }

  function ClearedRun(run: Option<Run>, only: Option<nat>): Option<Run> {
    if run.None? then None
    else
      var loose := run.value.(source := None);
      Some(if Active(loose.status) && (only.None? || loose.botId == only.value)
           then loose.(status := Cancelled) else loose)
  }

  /** Deleting a bot deletes its runs. */
  function WithoutBot(runs: Runs, botId: nat): (left: Runs)
    ensures |left| == |runs|
    ensures forall i :: 0 <= i < |runs| ==>
              left[i] == if runs[i].Some? && runs[i].value.botId == botId then None else runs[i]
  {
    seq(|runs|, i requires 0 <= i < |runs| =>
      if runs[i].Some? && runs[i].value.botId == botId then None else runs[i])
  }

  function Step(db: Db, op: Op): Db {
    match op
    case SendOp(nonce, target) =>
      var outcome := Commit(db, nonce, target);
      if outcome.Sent? then outcome.db else db
    case PostOp(nonce, runIds) =>
      if NonceTaken(db, nonce) then db
      else db.(messages := db.messages + [Some(Message(db.nextSeq, nonce, None))],
               events := db.events + [Created(|db.messages|, runIds)], nextSeq := db.nextSeq + 1)
    case StartOp(botId, trigger, source) =>
      if source.Some? && !Live(db, source.value) then db else Spawn(db, trigger, source, botId)
    case StatusOp(run, status) =>
      if Exists(db.runs, run)
      then db.(runs := db.runs[run := Some(db.runs[run].value.(status := status))]) else db
    case ReactOp(message, botId) =>
      if !Live(db, message) then db
      else if exists r :: r in db.runs && r.Some? && r.value.botId == botId && Steerable(r.value.status)
      then db.(events := db.events + [OtherEvent])
      else Spawn(db, Reaction, Some(message), botId)
    case ContinueOp(message, botId) =>
      if Live(db, message) && FirstActive(db.runs, botId, 0).None?
      then Spawn(db, FollowUp, Some(message), botId) else db
    case RemoveBotOp(botId) => db.(runs := WithoutBot(db.runs, botId))
    case DropOp(run) =>
      if Exists(db.runs, run) && db.runs[run].value.status == Queued && db.runs[run].value.trigger == Routine
      then db.(runs := db.runs[run := None]) else db
    case ClearOp(only) => Clear(db, only)
    case NoteOp => db.(events := db.events + [OtherEvent])
  }

  function After(db: Db, ops: seq<Op>): Db
    decreases |ops|
  {
    if ops == [] then db else After(Step(db, ops[0]), ops[1..])
  }

  predicate Cleared(ops: seq<Op>) { exists op :: op in ops && op.ClearOp? }

  /** Runs name messages that exist, and no nonce is used twice. */
  predicate Valid(db: Db) {
    && (forall r :: r in db.runs && r.Some? && r.value.source.Some? ==> Live(db, r.value.source.value))
    && (forall i, j | 0 <= i < j < |db.messages| && Live(db, i) && Live(db, j) ::
          db.messages[i].value.clientNonce.Some? ==>
            db.messages[i].value.clientNonce != db.messages[j].value.clientNonce)
  }

  /** What is left of a run is the run it was, with the same task; while `m` lives its source too. */
  predicate SameRuns(first: Db, db: Db, m: nat) {
    && |first.runs| <= |db.runs|
    && forall i :: 0 <= i < |first.runs| && Exists(db.runs, i) ==>
         && Exists(first.runs, i) && db.runs[i].value.taskId == first.runs[i].value.taskId
         && (Live(db, m) ==> db.runs[i].value.source == first.runs[i].value.source)
  }

  /** What becomes of message `m` of `first`: while it lives it is as it was, with the same receipt;
      later messages have later sequence numbers; and it dies only together with everything before. */
  predicate Fate(first: Db, db: Db, m: nat)
    requires Live(first, m)
  {
    var seqNo := first.messages[m].value.seqNo;
    && |first.messages| <= |db.messages| && SameRuns(first, db, m)
    && seqNo < db.nextSeq
    && (forall i :: m < i < |db.messages| && Live(db, i) ==> seqNo < db.messages[i].value.seqNo)
    && if Live(db, m)
       then db.messages[m] == first.messages[m] && Receipt(db.events, m) == Receipt(first.events, m)
       else forall i :: 0 <= i <= m ==> !Live(db, i)
  }

  lemma ReceiptSkips(events: seq<Event>, e: Event, m: nat)
    requires e.Created? ==> e.messageId != m
    ensures Receipt(events + [e], m) == Receipt(events, m)
  {
    assert (events + [e])[..|events|] == events;
  }

  lemma CommitKeepsValid(db: Db, nonce: Option<string>, target: Target)
    requires Valid(db) && Commit(db, nonce, target).Sent?
    ensures Valid(Commit(db, nonce, target).db)
  {
    NothingIsSuperseded(db, nonce, target);
    var later := Commit(db, nonce, target).db;
    assert forall i :: 0 <= i < |db.messages| ==> later.messages[i] == db.messages[i];
    assert nonce.Some? ==> forall i :: 0 <= i < |db.messages| ==> !HasNonce(db.messages[i], nonce.value);
  }

  lemma StepKeepsValid(db: Db, op: Op)
    requires Valid(db)
    ensures Valid(Step(db, op))
  {
    match op
    case SendOp(nonce, target) =>
      if Commit(db, nonce, target).Sent? { CommitKeepsValid(db, nonce, target); }
    case PostOp(nonce, _) => PostKeepsValid(db, op);
    case ClearOp(only) =>
      assert forall i :: !Live(Clear(db, only), i);
    case RemoveBotOp(botId) =>
      assert forall i :: Exists(WithoutBot(db.runs, botId), i) ==> Exists(db.runs, i);
    case _ =>
  }

  lemma PostKeepsValid(db: Db, op: Op)
    requires Valid(db) && op.PostOp?
    ensures Valid(Step(db, op))
  {
    if !NonceTaken(db, op.postNonce) {
      assert op.postNonce.Some? ==>
               forall i :: 0 <= i < |db.messages| ==> !HasNonce(db.messages[i], op.postNonce.value);
    }
  }

  lemma OldMessagesStay(first: Db, db: Db, later: Db, m: nat)
    requires Live(first, m) && Fate(first, db, m) && db.messages <= later.messages
    ensures Live(later, m) <==> Live(db, m)
    ensures !Live(db, m) ==> forall i :: 0 <= i <= m ==> !Live(later, i)
  {
    forall i | 0 <= i <= m ensures later.messages[i] == db.messages[i] && (Live(later, i) <==> Live(db, i)) {}
  }

  lemma CommitKeepsFate(first: Db, db: Db, m: nat, nonce: Option<string>, target: Target)
    requires Live(first, m) && Fate(first, db, m) && Commit(db, nonce, target).Sent?
    ensures Fate(first, Commit(db, nonce, target).db, m)
    ensures Live(Commit(db, nonce, target).db, m) <==> Live(db, m)
  {
    var later := Commit(db, nonce, target).db;
    NothingIsSuperseded(db, nonce, target);
    ReceiptSkips(db.events, Created(|db.messages|, if Steers(db, target) then None
                                                   else Some(Commit(db, nonce, target).result.runIds)), m);
    OldMessagesStay(first, db, later, m);
    assert forall i :: 0 <= i < |db.runs| ==> later.runs[i] == db.runs[i];
  }

  lemma StepKeepsFate(first: Db, db: Db, m: nat, op: Op)
    requires Live(first, m) && Fate(first, db, m)
    ensures Fate(first, Step(db, op), m)
    ensures Live(Step(db, op), m) <==> Live(db, m) && !op.ClearOp?
  {
    match op
    case SendOp(nonce, target) =>
      if Commit(db, nonce, target).Sent? { CommitKeepsFate(first, db, m, nonce, target); }
    case PostOp(_, _) => PostKeepsFate(first, db, m, op);
    case ClearOp(only) => ClearKeepsFate(first, db, m, only);
    case _ => OtherKeepsFate(first, db, m, op);
  }

  lemma PostKeepsFate(first: Db, db: Db, m: nat, op: Op)
    requires Live(first, m) && Fate(first, db, m) && op.PostOp?
    ensures Fate(first, Step(db, op), m) && (Live(Step(db, op), m) <==> Live(db, m))
  {
    ReceiptSkips(db.events, Created(|db.messages|, op.runIds), m);
    OldMessagesStay(first, db, Step(db, op), m);
  }

  lemma ClearKeepsFate(first: Db, db: Db, m: nat, only: Option<nat>)
    requires Live(first, m) && Fate(first, db, m)
    ensures Fate(first, Clear(db, only), m) && !Live(Clear(db, only), m)
  {
    var later := Clear(db, only);
    assert forall i :: !Live(later, i);
    assert forall i :: 0 <= i < |db.runs| ==> later.runs[i] == ClearedRun(db.runs[i], only);
  }

  lemma OtherKeepsFate(first: Db, db: Db, m: nat, op: Op)
    requires Live(first, m) && Fate(first, db, m) && !op.SendOp? && !op.PostOp? && !op.ClearOp?
    ensures Fate(first, Step(db, op), m) && (Live(Step(db, op), m) <==> Live(db, m))
  {
    var later := Step(db, op);
    ReceiptSkips(db.events, OtherEvent, m);
    assert later.messages == db.messages;
    OldMessagesStay(first, db, later, m);
    assert forall i :: 0 <= i < |db.runs| && Exists(later.runs, i) ==>
             && Exists(db.runs, i) && later.runs[i].value.taskId == db.runs[i].value.taskId
             && later.runs[i].value.source == db.runs[i].value.source;
  }

  lemma {:induction false} AfterKeepsFate(first: Db, db: Db, m: nat, ops: seq<Op>)
    requires Valid(db) && Live(first, m) && Fate(first, db, m)
    ensures Valid(After(db, ops)) && Fate(first, After(db, ops), m)
    ensures Live(After(db, ops), m) <==> Live(db, m) && !Cleared(ops)
    decreases |ops|
  {
    if ops != [] {
      StepKeepsValid(db, ops[0]);
      StepKeepsFate(first, db, m, ops[0]);
      AfterKeepsFate(first, Step(db, ops[0]), m, ops[1..]);
      assert ops == [ops[0]] + ops[1..];
      assert Cleared(ops) <==> ops[0].ClearOp? || Cleared(ops[1..]);
    }
  }

  // ----- replaying -----

  /** A live message is the one its nonce finds. */
  lemma FindLive(db: Db, m: nat, nonce: string)
    requires Valid(db) && Live(db, m) && HasNonce(db.messages[m], nonce)
    ensures FindNonce(db.messages, nonce, 0) == Some(m)
  {
    var found := FindNonce(db.messages, nonce, 0);
    assert found.Some? && HasNonce(db.messages[found.value], nonce);
    assert Live(db, found.value);
  }

  lemma ReceiptOfCommit(db: Db, nonce: Option<string>, target: Target, later: Db)
    requires Commit(db, nonce, target).Sent?
    requires Receipt(later.events, |db.messages|) == Receipt(Commit(db, nonce, target).db.events, |db.messages|)
    ensures ReceiptRuns(later, |db.messages|)
            == if Steers(db, target) then [] else Existing(Commit(db, nonce, target).result.runIds, later.runs)
  {}

  lemma SteerServes(db: Db, nonce: Option<string>, target: Target)
    requires Commit(db, nonce, target).Sent? && Steers(db, target)
    ensures var (db', result) := (Commit(db, nonce, target).db, Commit(db, nonce, target).result);
            && result.runIds == [result.runId] && Exists(db.runs, result.runId) && db'.runs == db.runs
  {
    var m := |db.messages|;
    var active := FirstActive(db.runs, target.botId, 0);
    assert [target.botId][1..] == [];
    assert Serve(db.runs, db.runs, [], m, db.nextTask) == (db.runs, []);
    assert Serve(db.runs, db.runs, [target.botId], m, db.nextTask) == (db.runs, [active.value] + []);
    NothingIsSuperseded(db, nonce, target);
  }

  predicate Sourced(db: Db, m: nat) { exists r :: r in db.runs && SourcedAt(r, m) }

  /** The condition of an equal replay, apart from clearing: every run the first answer named still
      exists and, if the send steered, no run is sourced at its message. */
  predicate Unchanged(db: Db, nonce: string, target: Target, later: Db)
    requires Commit(db, Some(nonce), target).Sent?
  {
    && AllExist(later.runs, Commit(db, Some(nonce), target).result.runIds)
    && (Steers(db, target) ==> !Sourced(later, |db.messages|))
  }

  /** The main law. However the thread goes on, a replay of the nonce gives the same task, run,
      sequence number and ordered run ids as the first send did if and only if the thread was not
      cleared since, every run the first answer named still exists and, for a steer, no run is
      sourced at the message. */
  lemma ReplayEqualsFirstSend(db: Db, nonce: string, target: Target, ops: seq<Op>)
    requires Valid(db) && Commit(db, Some(nonce), target).Sent?
    ensures var (db', result) := (Commit(db, Some(nonce), target).db, Commit(db, Some(nonce), target).result);
            var later := After(db', ops);
            Replay(later, Some(nonce)) == Some(result) <==> !Cleared(ops) && Unchanged(db, nonce, target, later)
  {
    var db' := Commit(db, Some(nonce), target).db;
    CommitFate(db, Some(nonce), target);
    AfterKeepsFate(db', db', |db.messages|, ops);
    ReplayIn(db, nonce, target, After(db', ops));
  }

  lemma CommitFate(db: Db, nonce: Option<string>, target: Target)
    requires Valid(db) && Commit(db, nonce, target).Sent?
    ensures var db' := Commit(db, nonce, target).db;
            Valid(db') && Live(db', |db.messages|) && Fate(db', db', |db.messages|)
  {
    CommitKeepsValid(db, nonce, target);
  }

  /** A replay has something to answer: a run the first answer named, or one sourced at the message. */
  predicate Answerable(db: Db, nonce: string, target: Target, later: Db)
    requires Commit(db, Some(nonce), target).Sent?
  {
    || Sourced(later, |db.messages|)
    || exists i :: i in Commit(db, Some(nonce), target).result.runIds && Exists(later.runs, i)
  }

  /** The same for any later state; and while the message lives a replay answers exactly as long as
      there is a run to answer with, always with its sequence number, and unless it was a steer with
      those of the first answer's runs that are left, in their order. */
  lemma ReplayIn(db: Db, nonce: string, target: Target, later: Db)
    requires Valid(db) && Commit(db, Some(nonce), target).Sent? && Valid(later)
    requires Live(Commit(db, Some(nonce), target).db, |db.messages|)
    requires Fate(Commit(db, Some(nonce), target).db, later, |db.messages|)
    ensures Live(later, |db.messages|) ==>
              && (Replay(later, Some(nonce)).Some? <==> Answerable(db, nonce, target, later))
              && (Replay(later, Some(nonce)).Some? ==>
                    Replay(later, Some(nonce)).value.seqNo == Commit(db, Some(nonce), target).result.seqNo)
    ensures Live(later, |db.messages|) && !Steers(db, target) ==>
              var left := Existing(Commit(db, Some(nonce), target).result.runIds, later.runs);
              left != [] ==> Replay(later, Some(nonce)) == Some(ResultOf(later, |db.messages|, left))
    ensures Replay(later, Some(nonce)) == Some(Commit(db, Some(nonce), target).result)
            <==> Live(later, |db.messages|) && Unchanged(db, nonce, target, later)
  {
    if Live(later, |db.messages|) {
      if Steers(db, target) { ReplayOfSteer(db, nonce, target, later); }
      else { ReplayOfRuns(db, nonce, target, later); }
    } else if FindNonce(later.messages, nonce, 0).Some? {
      assert Live(later, FindNonce(later.messages, nonce, 0).value);
    }
  }

  /** The runs sourced at a message, all of them, in the order they were made. */
  lemma {:induction false} SourcesInOrder(runs: Runs, m: nat, n: nat)
    requires n <= |runs|
    ensures forall i :: 0 <= i < n && SourcedAt(runs[i], m) ==> i in SourceRuns(runs, m, n)
    ensures forall j, k :: 0 <= j < k < |SourceRuns(runs, m, n)| ==>
              SourceRuns(runs, m, n)[j] < SourceRuns(runs, m, n)[k]
  {
    if n > 0 {
      var most := SourceRuns(runs, m, n - 1);
      SourcesInOrder(runs, m, n - 1);
      assert forall j :: 0 <= j < |most| ==> most[j] in most;
    }
  }

  lemma SourcesAreSourced(db: Db, m: nat)
    ensures SourceRuns(db.runs, m, |db.runs|) != [] <==> Sourced(db, m)
    ensures SourceRuns(db.runs, m, |db.runs|) != [] ==>
              SourceRuns(db.runs, m, |db.runs|)[0] in SourceRuns(db.runs, m, |db.runs|)
  {}

  lemma ReplayOfSteer(db: Db, nonce: string, target: Target, later: Db)
    requires Valid(db) && Commit(db, Some(nonce), target).Sent? && Valid(later)
    requires Live(Commit(db, Some(nonce), target).db, |db.messages|)
    requires Fate(Commit(db, Some(nonce), target).db, later, |db.messages|) && Live(later, |db.messages|)
    requires Steers(db, target)
    ensures Replay(later, Some(nonce)).Some? <==> Answerable(db, nonce, target, later)
    ensures Replay(later, Some(nonce)).Some? ==>
              Replay(later, Some(nonce)).value.seqNo == Commit(db, Some(nonce), target).result.seqNo
    ensures Replay(later, Some(nonce)) == Some(Commit(db, Some(nonce), target).result)
            <==> Unchanged(db, nonce, target, later)
  {
    var sent := Commit(db, Some(nonce), target);
    var m := |db.messages|;
    var active := sent.result.runId;
    FindLive(later, m, nonce);
    ReceiptOfCommit(db, Some(nonce), target, later);
    SteerServes(db, Some(nonce), target);
    SourcesAreSourced(later, m);
    assert forall i :: i in sent.result.runIds <==> i == active;
    assert Exists(later.runs, active) ==> !SourcedAt(later.runs[active], m);
  }

  /** The replay of a live message, case by case. */
  lemma ReplayByCases(db: Db, nonce: string, m: nat)
    requires Valid(db) && Live(db, m) && HasNonce(db.messages[m], nonce)
    ensures var receipt, replay := ReceiptRuns(db, m), Replay(db, Some(nonce));
            && (receipt != [] ==> replay == Some(ResultOf(db, m, receipt)))
            && (receipt == [] && Sourced(db, m) ==> replay.Some?)
            && (receipt == [] && !Sourced(db, m) ==>
                  var stored := db.messages[m].value.runId;
                  (replay.Some? <==> stored.Some? && Exists(db.runs, stored.value)))
            && (replay.Some? ==> replay.value.seqNo == db.messages[m].value.seqNo)
  {
    FindLive(db, m, nonce);
    SourcesAreSourced(db, m);
  }

  /** A replay of a new run or a group answers with the runs that are left, if any. */
  lemma ReplayOfLeft(db: Db, nonce: string, target: Target, later: Db)
    requires Valid(db) && Commit(db, Some(nonce), target).Sent? && Valid(later)
    requires Live(Commit(db, Some(nonce), target).db, |db.messages|)
    requires Fate(Commit(db, Some(nonce), target).db, later, |db.messages|) && Live(later, |db.messages|)
    requires !Steers(db, target)
    ensures var left := Existing(Commit(db, Some(nonce), target).result.runIds, later.runs);
            && (left != [] ==> Replay(later, Some(nonce)) == Some(ResultOf(later, |db.messages|, left)))
            && (left == [] ==> (Replay(later, Some(nonce)).Some? <==> Sourced(later, |db.messages|)))
    ensures Replay(later, Some(nonce)).Some? ==>
              Replay(later, Some(nonce)).value.seqNo == Commit(db, Some(nonce), target).result.seqNo
  {
    var ids := Commit(db, Some(nonce), target).result.runIds;
    NothingIsSuperseded(db, Some(nonce), target);
    ReplayByCases(later, nonce, |db.messages|);
    ReceiptOfCommit(db, Some(nonce), target, later);
    KeptOrNone(ids, later.runs);
    assert ids[0] == Commit(db, Some(nonce), target).result.runId && ids[0] in ids;
  }

  lemma ReplayOfRuns(db: Db, nonce: string, target: Target, later: Db)
    requires Valid(db) && Commit(db, Some(nonce), target).Sent? && Valid(later)
    requires Live(Commit(db, Some(nonce), target).db, |db.messages|)
    requires Fate(Commit(db, Some(nonce), target).db, later, |db.messages|) && Live(later, |db.messages|)
    requires !Steers(db, target)
    ensures var left := Existing(Commit(db, Some(nonce), target).result.runIds, later.runs);
            left != [] ==> Replay(later, Some(nonce)) == Some(ResultOf(later, |db.messages|, left))
    ensures Replay(later, Some(nonce)).Some? <==> Answerable(db, nonce, target, later)
    ensures Replay(later, Some(nonce)).Some? ==>
              Replay(later, Some(nonce)).value.seqNo == Commit(db, Some(nonce), target).result.seqNo
    ensures Replay(later, Some(nonce)) == Some(Commit(db, Some(nonce), target).result)
            <==> Unchanged(db, nonce, target, later)
  {
    var sent := Commit(db, Some(nonce), target);
    var ids := sent.result.runIds;
    ReplayOfLeft(db, nonce, target, later);
    KeptOrNone(ids, later.runs);
    AnsweredIdsExist(later, Some(nonce));
    if AllExist(later.runs, ids) {
      NothingIsSuperseded(db, Some(nonce), target);
      assert ids[0] in ids && later.runs[ids[0]].value.taskId == sent.db.runs[ids[0]].value.taskId;
    }
  }

  lemma KeptOrNone(ids: seq<nat>, runs: Runs)
    ensures Existing(ids, runs) == [] <==> forall i :: i in ids ==> !Exists(runs, i)
  {
    var kept := Existing(ids, runs);
    assert kept != [] ==> kept[0] in kept;
  }

  /** A replay names only runs that exist. */
  lemma AnsweredIdsExist(db: Db, nonce: Option<string>)
    ensures Replay(db, nonce).Some? ==> AllExist(db.runs, Replay(db, nonce).value.runIds)
  {}

  /** Until the thread is cleared the nonce makes one message: sent again, to whatever target, it is
      refused, and it is answered exactly as long as there is a run to answer with. */
  lemma NonceSendsOnce(db: Db, nonce: string, target: Target, ops: seq<Op>, again: Target)
    requires Valid(db) && Commit(db, Some(nonce), target).Sent? && !Cleared(ops)
    ensures var later := After(Commit(db, Some(nonce), target).db, ops);
            && Commit(later, Some(nonce), again) == Rejected(DuplicateNonce)
            && (Replay(later, Some(nonce)).Some? <==> Answerable(db, nonce, target, later))
  {
    var sent := Commit(db, Some(nonce), target);
    var later := After(sent.db, ops);
    CommitFate(db, Some(nonce), target);
    AfterKeepsFate(sent.db, sent.db, |db.messages|, ops);
    FindLive(later, |db.messages|, nonce);
    ReplayIn(db, nonce, target, later);
  }

  /** Clearing a thread forgets its nonces: nothing is replayed, and no send is refused for its nonce. */
  lemma {:induction false} ClearForgets(db: Db, only: Option<nat>, nonce: string, again: Target)
    ensures Replay(Clear(db, only), Some(nonce)).None?
    ensures Commit(Clear(db, only), Some(nonce), again) != Rejected(DuplicateNonce)
  {
    var cleared := Clear(db, only);
    assert forall i :: 0 <= i < |cleared.messages| ==> !HasNonce(cleared.messages[i], nonce);
    assert FindNonce(cleared.messages, nonce, 0).None?;
  }

  /** And it stops the work: no run of the cleared bots stays active, every other run keeps its status, and
      none is sourced at a message any more. */
  lemma ClearStopsTheWork(db: Db, only: Option<nat>, i: nat)
    requires Exists(db.runs, i)
    ensures var run, later := db.runs[i].value, Clear(db, only).runs;
            && Exists(later, i) && later[i].value.source == None && later[i].value.taskId == run.taskId
            && later[i].value.status
               == if run.status in {Queued, Leased, Running, WaitingInput, WaitingTakeover}
                     && (only == None || only == Some(run.botId)) then Cancelled else run.status
  {}

  // ----- where a replay differs -----

  lemma TwoSteps(db: Db, one: Op, two: Op)
    ensures After(db, [one, two]) == Step(Step(db, one), two)
  {
    assert [one, two][1..] == [two] && [two][1..] == [];
    assert After(Step(db, one), [two]) == After(Step(Step(db, one), two), []);
  }

  /** A steer: the steered run ends, the user thumbs the message up, and the same nonce now names the
      reaction's run. */
  lemma ThumbedSteerReplaysAnotherRun()
    ensures var db := Db([], [Some(Run(7, 0, Running, User, None))], [], 1, 1);
            var sent := Commit(db, Some("n"), Bot(7));
            && Valid(db) && sent.Sent? && sent.result == SendResult(0, 0, 1, [0])
            && Replay(After(sent.db, [StatusOp(0, Completed), ReactOp(0, 7)]), Some("n"))
                == Some(SendResult(1, 1, 1, [1]))
  {
    var busy := Run(7, 0, Running, User, None);
    var sent := SteerOf(busy);
    TwoSteps(sent, StatusOp(0, Completed), ReactOp(0, 7));
    var ended := Step(sent, StatusOp(0, Completed));
    assert ended.runs == [Some(busy.(status := Completed))];
    var thumbed := Step(ended, ReactOp(0, 7));
    assert thumbed.runs == [Some(busy.(status := Completed)), Some(Run(7, 1, Queued, Reaction, Some(0)))];
    assert thumbed.events[..1] == [Created(0, None)];
    assert Receipt(thumbed.events, 0) == Some(Created(0, None));
    assert SourceRuns(thumbed.runs, 0, 1) == [];
    assert SourceRuns(thumbed.runs, 0, 2) == [1];
  }

  /** A steer of bot 7's only run. */
  lemma SteerOf(busy: Run) returns (sent: Db)
    requires busy.botId == 7 && busy.source == None && Active(busy.status) && Steerable(busy.status)
    ensures var db := Db([], [Some(busy)], [], 1, 1);
            && Valid(db) && Commit(db, Some("n"), Bot(7)) == Sent(sent, SendResult(busy.taskId, 0, 1, [0]))
    ensures sent == Db([Some(Message(1, Some("n"), Some(0)))], [Some(busy)], [Created(0, None)], 2, 1)
  {
    var db := Db([], [Some(busy)], [], 1, 1);
    assert FirstActive(db.runs, 7, 0) == Some(0);
    assert forall r :: r in db.runs ==> r == Some(busy);
    SteerServes(db, Some("n"), Bot(7));
    sent := Commit(db, Some("n"), Bot(7)).db;
  }

  /** A routine's run that was steered and then dropped: the send is no longer answered, and the same
      nonce is refused. */
  lemma DroppedRunRefusesTheNonce()
    ensures var db := Db([], [Some(Run(7, 0, Queued, Routine, None))], [], 1, 1);
            var sent := Commit(db, Some("n"), Bot(7));
            var later := Step(sent.db, DropOp(0));
            && Valid(db) && sent.Sent? && sent.result == SendResult(0, 0, 1, [0])
            && Replay(later, Some("n")) == None && Commit(later, Some("n"), Bot(7)) == Rejected(DuplicateNonce)
  {
    var db := Db([], [Some(Run(7, 0, Queued, Routine, None))], [], 1, 1);
    var sent := SteerOf(Run(7, 0, Queued, Routine, None));
    WithoutRunsNoAnswer(db, Bot(7), [DropOp(0)]);
    assert [DropOp(0)][1..] == [] && After(Step(sent, DropOp(0)), []) == Step(sent, DropOp(0));
    assert Step(sent, DropOp(0)).runs == [None];
  }

  lemma WithoutRunsNoAnswer(db: Db, target: Target, ops: seq<Op>)
    requires Valid(db) && Commit(db, Some("n"), target).Sent? && !Cleared(ops)
    ensures var later := After(Commit(db, Some("n"), target).db, ops);
            && Commit(later, Some("n"), target) == Rejected(DuplicateNonce)
            && ((forall i :: !Exists(later.runs, i)) ==> Replay(later, Some("n")) == None)
  {
    NonceSendsOnce(db, "n", target, ops, target);
    var later := After(Commit(db, Some("n"), target).db, ops);
    if r :| r in later.runs && SourcedAt(r, |db.messages|) {
      var i :| 0 <= i < |later.runs| && later.runs[i] == r;
      assert Exists(later.runs, i);
    }
  }

  /** Removing a bot of a group leaves a replay with the runs of the others. */
  lemma ReplayAfterRemoval(db: Db, nonce: string, target: Target, sent: Outcome, later: Db, botId: nat)
    requires Valid(db) && sent == Commit(db, Some(nonce), target) && sent.Sent? && target.Group?
    requires later == sent.db.(runs := WithoutBot(sent.db.runs, botId))
    ensures Live(later, |db.messages|) && later.messages[|db.messages|].value.seqNo == sent.result.seqNo
    ensures var left := Existing(sent.result.runIds, later.runs);
            left != [] ==> Replay(later, Some(nonce)) == Some(ResultOf(later, |db.messages|, left))
  {
    CommitFate(db, Some(nonce), target);
    StepKeepsFate(sent.db, sent.db, |db.messages|, RemoveBotOp(botId));
    StepKeepsValid(sent.db, RemoveBotOp(botId));
    assert later == Step(sent.db, RemoveBotOp(botId));
    ReplayIn(db, nonce, target, later);
  }

  /** A send to two bots of a group, the first of which is removed: the same nonce now names another
      task and run, and one run less. */
  lemma RemovedBotShortensTheReplay() returns (db: Db, target: Target, sent: Outcome)
    ensures db == Db([], [], [], 1, 0) && target == Group([1, 2]) && sent == Commit(db, Some("n"), target)
    ensures sent.Sent? && sent.result == SendResult(0, 0, 1, [0, 1])
    ensures Replay(Step(sent.db, RemoveBotOp(1)), Some("n")) == Some(SendResult(1, 1, 1, [1]))
  {
    db, target := Db([], [], [], 1, 0), Group([1, 2]);
    sent := GroupOfTwo(db, target, [1, 2], NewRun(1, 0, 0), NewRun(2, 1, 0));
    FirstOfTwoRemoved(db, target, sent, Step(sent.db, RemoveBotOp(1)));
  }

  lemma GroupOfTwo(db: Db, target: Target, bots: seq<nat>, a: Option<Run>, b: Option<Run>) returns (sent: Outcome)
    requires db == Db([], [], [], 1, 0) && target == Group(bots) && bots == [1, 2]
    requires a == NewRun(1, 0, 0) && b == NewRun(2, 1, 0)
    ensures Valid(db) && sent == Commit(db, Some("n"), target) && sent.Sent?
    ensures sent.result == SendResult(0, 0, 1, [0, 1]) && sent.db.runs == [a, b]
  {
    ServeFresh([], 1, [2], 0);
    ServeFresh([a], 2, [], 1);
    assert [] + [a] == [a] && [a] + [b] == [a, b] && [1] + [2] == bots && [2] + [] == [2];
    assert Serve([], [], bots, 0, 0) == ([a, b], [0] + ([1] + []));
    assert [0] + ([1] + []) == [0, 1];
    sent := Commit(db, Some("n"), target);
    SupersedesNothing([a, b], [0, 1]);
  }

  lemma FirstOfTwoRemoved(db: Db, target: Target, sent: Outcome, later: Db)
    requires Valid(db) && sent == Commit(db, Some("n"), target) && sent.Sent? && target.Group?
    requires sent.db.runs == [NewRun(1, 0, 0), NewRun(2, 1, 0)] && sent.result == SendResult(0, 0, 1, [0, 1])
    requires later == Step(sent.db, RemoveBotOp(1))
    ensures Replay(later, Some("n")) == Some(SendResult(1, 1, 1, [1]))
  {
    ReplayAfterRemoval(db, "n", target, sent, later, 1);
    assert later.runs[0] == None && later.runs[1] == NewRun(2, 1, 0);
    SecondIsLeft(sent.result.runIds, later.runs);
  }

  lemma SecondIsLeft(ids: seq<nat>, runs: Runs)
    requires ids == [0, 1] && !Exists(runs, 0) && Exists(runs, 1)
    ensures Existing(ids, runs) == [1]
  {
    var one := ids[1..];
    assert Existing(one[1..], runs) == [] && Existing(one, runs) == [1] + [];
  }

  lemma ServeFresh(runs: Runs, bot: nat, rest: seq<nat>, task: nat)
    ensures var (after, ids) := Serve([], runs + [NewRun(bot, task, 0)], rest, 0, task + 1);
            Serve([], runs, [bot] + rest, 0, task) == (after, [|runs|] + ids)
  {
    assert ([bot] + rest)[1..] == rest && FirstActive([], bot, 0).None?;
  }

  lemma SupersedesNothing(runs: Runs, ids: seq<nat>)
    requires AllExist(runs, ids) && forall i :: 0 <= i < |runs| ==> i in ids
    ensures var made := Made(ids, 0); CancelSuperseded(runs, BotsOf(runs, made), made) == runs
  {}

  // ----- the program -----

  /** One thread's rows. The methods are the three database round trips of a send and the whole. */
  class ThreadStore {
    var db: Db

    constructor (start: Db)
      requires Valid(start)
      ensures db == start
    {
      db := start;
    }

    method ReplayExistingSend(nonce: Option<string>) returns (r: Option<SendResult>)
      ensures r == Replay(db, nonce)
    {
      r := Replay(db, nonce);
    }

    /** Which active run each target bot has, or that one of them waits for an answer. */
    method ActiveByBot(bots: seq<nat>) returns (blocked: bool, active: map<nat, nat>)
      ensures blocked == Blocked(db.runs, bots)
      ensures !blocked ==> forall b :: b in bots ==>
                FirstActive(db.runs, b, 0) == if b in active then Some(active[b]) else None
    {
      active := map[];
      var i := 0;
      while i < |db.runs|
        invariant 0 <= i <= |db.runs|
        invariant forall k :: 0 <= k < i ==> !Pending(db.runs[k], bots)
        invariant forall b :: b in bots ==>
                    FirstActive(db.runs, b, 0) == if b in active then Some(active[b]) else FirstActive(db.runs, b, i)
      {
        var run := db.runs[i];
        if run.Some? && run.value.botId in bots && Active(run.value.status) {
          if !Steerable(run.value.status) {
            assert Pending(run, bots);
            return true, active;
          }
          if run.value.botId !in active { active := active[run.value.botId := i]; }
        }
        i := i + 1;
      }
      blocked := false;
    }

    /** The loop over the targets: steer the active run of each, or make it a new one. */
    method ServeTargets(bots: seq<nat>, active: map<nat, nat>, m: nat) returns (runs: Runs, ids: seq<nat>)
      requires forall b :: b in bots ==>
                 FirstActive(db.runs, b, 0) == if b in active then Some(active[b]) else None
      ensures runs == Serve(db.runs, db.runs, bots, m, db.nextTask).0
      ensures ids == Serve(db.runs, db.runs, bots, m, db.nextTask).1
    {
      runs, ids := db.runs, [];
      var i := 0;
      ghost var all := Serve(db.runs, db.runs, bots, m, db.nextTask);
      assert bots[0..] == bots;
      while i < |bots|
        invariant 0 <= i <= |bots| && |db.runs| <= |runs|
        invariant Serve(db.runs, runs, bots[i..], m, db.nextTask + |runs| - |db.runs|).0 == all.0
        invariant ids + Serve(db.runs, runs, bots[i..], m, db.nextTask + |runs| - |db.runs|).1 == all.1
      {
        var bot := bots[i];
        var task := db.nextTask + |runs| - |db.runs|;
        ServeStep(db.runs, runs, bots, i, ids, m, task);
        if bot in active {
          ids := ids + [active[bot]];
        } else {
          ids := ids + [|runs|];
          runs := runs + [NewRun(bot, task, m)];
        }
        i := i + 1;
      }
      assert bots[i..] == [] && ids + [] == ids;
    }

    /** The rows a transaction writes once every target is served. */
    method Written(was: Db, nonce: Option<string>, runs: Runs, ids: seq<nat>, steer: bool)
      returns (now: Db, answer: SendResult)
      requires ids != [] && AllExist(runs, ids) && |was.runs| <= |runs|
      ensures now == Stored(was, nonce, steer, runs, ids) && answer == ResultOf(now, |was.messages|, ids)
    {
      assert ids[0] in ids;
      var made := Made(ids, |was.runs|);
      var kept := runs;
      if made != {} {
        kept := CancelSuperseded(runs, BotsOf(runs, made), made);
      } else {
        assert BotsOf(runs, made) == {} && CancelSuperseded(runs, {}, made) == runs;
      }
      now := Db(was.messages + [Some(Message(was.nextSeq, nonce, Some(ids[0])))], kept,
                was.events + [Created(|was.messages|, if steer then None else Some(ids))],
                was.nextSeq + 1, was.nextTask + |runs| - |was.runs|);
      answer := ResultOf(now, |was.messages|, ids);
    }

    /** The transaction. */
    method CommitSend(nonce: Option<string>, target: Target) returns (r: Answer)
      modifies this
      ensures var outcome := Commit(old(db), nonce, target);
              if outcome.Sent? then r == Answered(outcome.result) && db == outcome.db
              else r == Failed(outcome.error) && db == old(db)
    {
      var bots := Bots(target);
      if NonceTaken(db, nonce) { return Failed(DuplicateNonce); }
      var blocked, active := ActiveByBot(bots);
      if blocked { return Failed(Conflict); }
      if bots == [] { return Failed(Isolation); }
      ghost var outcome := Commit(db, nonce, target);
      assert outcome.Sent?;
      var runs, ids := ServeTargets(bots, active, |db.messages|);
      var steer := target.Bot? && target.botId in active;
      assert steer == Steers(db, target) by { assert target.Bot? ==> target.botId in bots; }
      var answer;
      ServeFacts(db.runs, db.runs, bots, |db.messages|, db.nextTask);
      db, answer := Written(db, nonce, runs, ids, steer);
      r := Answered(answer);
    }

    /** A commit that fails answers with the winner of the same nonce, if there is one. */
    method AfterFailure(nonce: Option<string>, error: Error) returns (r: Answer)
      ensures r == if Replay(db, nonce).Some? then Answered(Replay(db, nonce).value) else Failed(error)
    {
      var winner := ReplayExistingSend(nonce);
      r := if winner.Some? then Answered(winner.value) else Failed(error);
    }

    /** `sendThreadMessage`, when nothing else touches the thread between its steps. */
    method SendThreadMessage(nonce: Option<string>, target: Target) returns (r: Answer)
      requires Valid(db)
      modifies this
      ensures Valid(db) && old(db).messages <= db.messages && old(db).runs <= db.runs && old(db).events <= db.events
      ensures Replay(old(db), nonce).Some? ==> r == Answered(Replay(old(db), nonce).value) && db == old(db)
      ensures Replay(old(db), nonce).None? && Commit(old(db), nonce, target).Sent? ==>
                r == Answered(Commit(old(db), nonce, target).result) && db == Commit(old(db), nonce, target).db
      ensures r.Answered? && nonce.Some? ==> Replay(db, nonce) == Some(r.result)
      ensures r.Failed? ==> db == old(db) && Commit(db, nonce, target) == Rejected(r.error)
    {
      var existing := ReplayExistingSend(nonce);
      if existing.Some? { return Answered(existing.value); }
      r := CommitSend(nonce, target);
      if r.Answered? {
        CommitFate(old(db), nonce, target);
        NothingIsSuperseded(old(db), nonce, target);
        if nonce.Some? { ReplayAtOnce(old(db), nonce.value, target); }
      } else {
        r := AfterFailure(nonce, r.error);
      }
    }
  }

  lemma ReplayAtOnce(db: Db, nonce: string, target: Target)
    requires Valid(db) && Commit(db, Some(nonce), target).Sent?
    ensures Replay(Commit(db, Some(nonce), target).db, Some(nonce)) == Some(Commit(db, Some(nonce), target).result)
  {
    CommitFate(db, Some(nonce), target);
    ReplayIn(db, nonce, target, Commit(db, Some(nonce), target).db);
    if Steers(db, target) { SteerServes(db, Some(nonce), target); }
  }

  /** Two senders of one nonce race: both saw nothing, one commits, and whatever happens, short of
      clearing the thread, before the other's commit fails and it looks again, it is refused, and it
      answers with what the winner answered under the condition of a replay. */
  lemma RacingSendersAgree(db: Db, nonce: string, target: Target, before: seq<Op>, between: seq<Op>)
    requires Valid(db) && Commit(db, Some(nonce), target).Sent? && !Cleared(before)
    ensures var won := Commit(db, Some(nonce), target);
            var tried := After(won.db, before);
            var looked := After(tried, between);
            && Commit(tried, Some(nonce), target) == Rejected(DuplicateNonce)
            && (Replay(looked, Some(nonce)) == Some(won.result)
                <==> !Cleared(between) && Unchanged(db, nonce, target, looked))
  {
    var won := Commit(db, Some(nonce), target);
    var m := |db.messages|;
    NonceSendsOnce(db, nonce, target, before, target);
    CommitFate(db, Some(nonce), target);
    AfterKeepsFate(won.db, won.db, m, before);
    AfterKeepsFate(won.db, After(won.db, before), m, between);
    ReplayIn(db, nonce, target, After(After(won.db, before), between));
  }
}
