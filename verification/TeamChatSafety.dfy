/** What every run of the protocol keeps, with no assumption about time, clocks or crashes. */
module TeamChatSafety {
  import opened Wrappers
  import opened TeamChatRows
  import opened TeamChatProtocol

  // ----- the inductive invariant -----

  predicate Ended(run: RunState) { run == Completed || run == Failed || run == Cancelled }

  /** The life cycle of a row. */
  ghost predicate RowInv(row: Row) {
    && (row.runId.Some? <==> Linked(row.status))
    && (row.reason == AgentOwned <==> (row.status == Queueing || Linked(row.status)))
    && (row.reason == RoutineWake ==> row.status == Ignored)
    && (row.handle.Some? ==> Posted(row.status))
    && (row.status == Delivered ==> row.handle.Some?)
    && (row.status == Deferred || row.status == Queueing ==> row.lease.Some?)
  }

  ghost predicate SharedInv(g: Shared) {
    && (g.agentRun.Some? <==> g.run != NoRun)
    && |g.log| <= 1
    && (g.row.None? ==> g.log == [])
    && (g.row.Some? ==>
          && RowInv(g.row.value)
          && (g.row.value.runId.Some? ==> g.agentRun == g.row.value.runId)
          && (g.log != [] ==> Posted(g.row.value.status))
          && (Posted(g.row.value.status) ==> Ended(g.run))
          && (g.row.value.handle.Some? ==> FromLog(g, g.row.value.handle.value)))
  }

  /** A provider handle is the handle of the one logged send. */
  ghost predicate FromLog(g: Shared, handle: Handle) { handle.Provider? ==> g.log == [handle] }

  ghost predicate RowLinked(g: Shared) { g.row.Some? && Linked(g.row.value.status) }

  ghost predicate RowPosted(g: Shared) { g.row.Some? && Posted(g.row.value.status) }

  /** What holds at each program counter. */
  ghost predicate PcInv(g: Shared, pc: Pc) {
    match pc
    case H(_) => true
    case Q(FourthCheck(run)) => g.agentRun == Some(run)
    case Q(CancelRun(run)) => g.agentRun == Some(run)
    case Q(Link(run)) => g.agentRun == Some(run)
    case Q(Abandon(sent)) => sent ==> Ended(g.run)
    case Q(RetryMark(handle)) => RowLinked(g) && Ended(g.run) && FromLog(g, handle)
    case Q(_) => true
    case D(DeliverRead(_)) => true
    case D(CheckHandle) => RowPosted(g) && g.log == []
    case D(CallSend) => RowPosted(g) && g.log == []
    case D(Record(handle)) => RowPosted(g) && handle.Provider? && g.log == [handle]
    case D(Mark(handle)) => RowLinked(g) && Ended(g.run) && FromLog(g, handle)
    case D(_) => RowLinked(g) && Ended(g.run)
    case V(AmbientPromote(reason)) => !OwnershipMark(reason) && reason != RoutineWake
    case V(_) => true
    case Done => true
  }

  /** Reserved and about to call `send`. */
  predicate Pending(pc: Pc) { pc == D(CheckHandle) || pc == D(CallSend) }

  ghost predicate OnePending(procs: map<nat, Proc>) {
    forall p, q :: p in procs && q in procs && Pending(procs[p].pc) && Pending(procs[q].pc) ==> p == q
  }

  ghost predicate Inv(s: State) {
    && SharedInv(s.g)
    && (forall p :: p in s.procs ==> PcInv(s.g, s.procs[p].pc))
    && OnePending(s.procs)
  }

  /** What no step ever takes back. */
  ghost predicate Grows(g: Shared, g': Shared) {
    && g.clock <= g'.clock
    && (g.woken ==> g'.woken)
    && (g.agentRun.Some? ==> g'.agentRun == g.agentRun)
    && (Ended(g.run) ==> g'.run == g.run)
    && g.log <= g'.log
    && (g.row.Some? ==> g'.row.Some? && RowGrows(g.row.value, g'.row.value))
  }

  ghost predicate RowGrows(row: Row, row': Row) {
    && (row.runId.Some? ==> row'.runId == row.runId)
    && (Linked(row.status) ==> Linked(row'.status))
    && (Posted(row.status) ==> Posted(row'.status))
    && (row.status == Delivered ==> row'.status == Delivered)
    && (row.status == Ignored ==> row'.status == Ignored)
    && (row.handle.Some? ==> row'.handle.Some?)
  }

  // ----- one step -----

  ghost predicate Keeps(g: Shared, pc: Pc, m: Moved) {
    && SharedInv(m.g) && PcInv(m.g, m.pc) && Grows(g, m.g)
    && (m.g.log != g.log ==> pc == D(CallSend))
    && (Pending(m.pc) && !Pending(pc) ==> g.row.Some? && g.row.value.status == Running)
    && (RowLinked(m.g) && !RowLinked(g) ==> pc.Q? && pc.q.Link?)
    && (m.pc.Q? && m.pc.q.Link? && !(pc.Q? && pc.q.Link?) ==> !g.woken)
  }

  /** The step leaves the life cycle alone: nothing sent, nothing linked. */
  ghost predicate Quiet(g: Shared, g': Shared) {
    SharedInv(g') && Grows(g, g') && g'.log == g.log && (RowLinked(g') ==> RowLinked(g))
  }

  lemma ExtendIsQuiet(g: Shared)
    requires SharedInv(g)
    ensures Quiet(g, Extended(g).0)
  {}

  lemma WakeIsQuiet(g: Shared, wake: Wake, c: Choice)
    requires SharedInv(g)
    ensures Quiet(g, WakeStep(g, wake, c).0)
  {}

  lemma ResolveIsQuiet(g: Shared)
    requires SharedInv(g) && g.row.Some?
    ensures Quiet(g, Apply(g, ResolveRoutine(g.row.value)))
    ensures Quiet(g, Apply(g, ResolveAgent(g.row.value, g.ambient)))
  {}

  lemma QuietKeeps(g: Shared, pc: HandlerPc, m: Moved)
    requires Quiet(g, m.g) && (m.pc.H? || m.pc.Done?)
    ensures Keeps(g, H(pc), m)
  {}

  lemma WaitingCases(g: Shared, wake: Wake, beat: Beat, c: Choice)
    ensures var m := WaitingStep(g, wake, beat, c);
            m.pc.H? && (m.g == g || m.g == Extended(g).0 || m.g == WakeStep(g, wake, c).0)
  {}

  lemma ReleaseCases(g: Shared, host: nat, pc: HandlerPc, c: Choice)
    requires pc.Resolving? || pc.Releasing? || pc.Detached? || pc.Finishing? || pc.Trailing?
    ensures var m := HandlerStep(g, host, pc, c);
            && (m.pc.H? || m.pc.Done?)
            && (|| m.g == g || m.g == g.(inFlight := g.inFlight - {host})
                || m.g == Extended(g).0
                || ((pc.Releasing? || pc.Detached?) && m.g == WakeStep(g, pc.wake, c).0)
                || (g.row.Some? && m.g == Apply(g, ResolveRoutine(g.row.value)))
                || (g.row.Some? && m.g == Apply(g, ResolveAgent(g.row.value, g.ambient))))
  {}

  lemma LeavingIsQuiet(g: Shared, host: nat)
    requires SharedInv(g)
    ensures Quiet(g, g) && Quiet(g, g.(inFlight := g.inFlight - {host}))
  {}

  lemma ResolvingKeeps(g: Shared, host: nat, pc: HandlerPc, c: Choice)
    requires SharedInv(g) && pc.Resolving?
    ensures Keeps(g, H(pc), HandlerStep(g, host, pc, c))
  {
    LeavingIsQuiet(g, host);
    ExtendIsQuiet(g);
    if g.row.Some? { ResolveIsQuiet(g); }
    QuietKeeps(g, pc, HandlerStep(g, host, pc, c));
  }

  lemma ReleasingKeeps(g: Shared, host: nat, pc: HandlerPc, c: Choice)
    requires SharedInv(g) && pc.Releasing?
    ensures Keeps(g, H(pc), HandlerStep(g, host, pc, c))
  {
    LeavingIsQuiet(g, host);
    WakeIsQuiet(g, pc.wake, c);
    if g.row.Some? { ResolveIsQuiet(g); }
    QuietKeeps(g, pc, HandlerStep(g, host, pc, c));
  }

  lemma DetachedKeeps(g: Shared, host: nat, pc: HandlerPc, c: Choice)
    requires SharedInv(g) && pc.Detached?
    ensures Keeps(g, H(pc), HandlerStep(g, host, pc, c))
  {
    LeavingIsQuiet(g, host);
    WakeIsQuiet(g, pc.wake, c);
    QuietKeeps(g, pc, HandlerStep(g, host, pc, c));
  }

  lemma FinishingKeeps(g: Shared, host: nat, pc: HandlerPc, c: Choice)
    requires SharedInv(g) && (pc.Finishing? || pc.Trailing?)
    ensures Keeps(g, H(pc), HandlerStep(g, host, pc, c))
  {
    LeavingIsQuiet(g, host);
    ExtendIsQuiet(g);
    QuietKeeps(g, pc, HandlerStep(g, host, pc, c));
  }

  lemma WaitingIsQuiet(g: Shared, wake: Wake, beat: Beat, c: Choice)
    requires SharedInv(g)
    ensures Keeps(g, H(Waiting(wake, beat)), WaitingStep(g, wake, beat, c))
  {
    WaitingCases(g, wake, beat, c);
    ExtendIsQuiet(g);
    WakeIsQuiet(g, wake, c);
    assert Quiet(g, g);
    QuietKeeps(g, Waiting(wake, beat), WaitingStep(g, wake, beat, c));
  }

  lemma HandlerKeeps(g: Shared, host: nat, pc: HandlerPc, c: Choice)
    requires SharedInv(g)
    ensures Keeps(g, H(pc), HandlerStep(g, host, pc, c))
  {
    match pc
    case Waiting(wake, beat) => WaitingIsQuiet(g, wake, beat, c);
    case Extend => ExtendKeeps(g, host, c);
    case ReceivePlain => ReceiveKeeps(g, host, pc, c);
    case Upsert(_) => ReceiveKeeps(g, host, pc, c);
    case Claim(_) => ReceiveKeeps(g, host, pc, c);
    case Resolving(_, _) => ResolvingKeeps(g, host, pc, c);
    case Releasing(_) => ReleasingKeeps(g, host, pc, c);
    case Detached(_, _) => DetachedKeeps(g, host, pc, c);
    case Finishing(_) => FinishingKeeps(g, host, pc, c);
    case Trailing => FinishingKeeps(g, host, pc, c);
  }

  lemma ReceiveKeeps(g: Shared, host: nat, pc: HandlerPc, c: Choice)
    requires SharedInv(g) && (pc.ReceivePlain? || pc.Upsert? || pc.Claim?)
    ensures Keeps(g, H(pc), HandlerStep(g, host, pc, c))
  {}

  lemma ExtendKeeps(g: Shared, host: nat, c: Choice)
    requires SharedInv(g)
    ensures Keeps(g, H(Extend), HandlerStep(g, host, Extend, c))
  {
    ExtendIsQuiet(g);
  }

  predicate ReadsOnly(pc: QueuePc) {
    pc.QueueRead? || pc.FirstCheck? || pc.SecondCheck? || pc.LatestRead? || pc.ThirdCheck?
  }

  lemma QueueReadKeeps(g: Shared, pc: QueuePc, c: Choice)
    requires SharedInv(g) && PcInv(g, Q(pc)) && Fits(c) && ReadsOnly(pc)
    ensures Keeps(g, Q(pc), QueueStep(g, pc, c))
  {}

  lemma RetryReadKeeps(g: Shared, claimed: bool, c: Choice)
    requires SharedInv(g) && Fits(c)
    ensures Keeps(g, Q(RetryRead(claimed)), QueueStep(g, RetryRead(claimed), c))
  {}

  lemma QueueRunKeeps(g: Shared, pc: QueuePc, c: Choice)
    requires SharedInv(g) && PcInv(g, Q(pc)) && Fits(c) && (pc.SendAgent? || pc.FourthCheck? || pc.CancelRun?)
    ensures Keeps(g, Q(pc), QueueStep(g, pc, c))
  {}

  lemma AbandonKeeps(g: Shared, pc: QueuePc, c: Choice)
    requires SharedInv(g) && PcInv(g, Q(pc)) && Fits(c)
    requires pc.AbandonEarly? || pc.Abandon?
    ensures Keeps(g, Q(pc), QueueStep(g, pc, c))
  {
    if g.row.Some? { AbandonIsQuiet(g); }
  }

  lemma AbandonIsQuiet(g: Shared)
    requires SharedInv(g) && g.row.Some?
    ensures Quiet(g, Apply(g, AbandonReceived(g.row.value)))
    ensures Quiet(g, Apply(g, AbandonQueueing(g.row.value)))
  {}

  lemma ClaimKeeps(g: Shared, c: Choice)
    requires SharedInv(g) && Fits(c)
    ensures Keeps(g, Q(TryClaim), QueueStep(g, TryClaim, c))
  {}

  lemma LinkKeeps(g: Shared, run: nat, c: Choice)
    requires SharedInv(g) && PcInv(g, Q(Link(run))) && Fits(c)
    ensures Keeps(g, Q(Link(run)), QueueStep(g, Link(run), c))
  {}

  lemma RetryKeeps(g: Shared, pc: QueuePc, c: Choice)
    requires SharedInv(g) && PcInv(g, Q(pc)) && Fits(c) && (pc.RetryUpdate? || pc.RetryMark?)
    ensures Keeps(g, Q(pc), QueueStep(g, pc, c))
  {}

  lemma QueueKeeps(g: Shared, pc: QueuePc, c: Choice)
    requires SharedInv(g) && PcInv(g, Q(pc)) && Fits(c)
    ensures Keeps(g, Q(pc), QueueStep(g, pc, c))
  {
    if ReadsOnly(pc) { QueueReadKeeps(g, pc, c); }
    else if pc.RetryRead? { RetryReadKeeps(g, pc.claimed, c); }
    else if pc.SendAgent? || pc.FourthCheck? || pc.CancelRun? { QueueRunKeeps(g, pc, c); }
    else if pc.RetryUpdate? || pc.RetryMark? { RetryKeeps(g, pc, c); }
    else if pc.Link? { LinkKeeps(g, pc.run, c); }
    else if pc.TryClaim? { ClaimKeeps(g, c); }
    else { AbandonKeeps(g, pc, c); }
  }

  lemma DeliverReadKeeps(g: Shared, pc: DeliverPc, c: Choice)
    requires SharedInv(g) && PcInv(g, D(pc))
    requires pc.DeliverRead? || pc.Content? || pc.CheckPosted? || pc.CheckHandle?
    ensures Keeps(g, D(pc), DeliverStep(g, pc, c))
  {}

  lemma ReserveKeeps(g: Shared, pc: DeliverPc, c: Choice)
    requires SharedInv(g) && PcInv(g, D(pc)) && (pc.Reserve? || pc.Finalize?)
    ensures Keeps(g, D(pc), DeliverStep(g, pc, c))
  {}

  lemma SendKeeps(g: Shared, c: Choice)
    requires SharedInv(g) && PcInv(g, D(CallSend))
    ensures Keeps(g, D(CallSend), DeliverStep(g, CallSend, c))
  {}

  lemma RecordKeeps(g: Shared, pc: DeliverPc, c: Choice)
    requires SharedInv(g) && PcInv(g, D(pc)) && (pc.Record? || pc.Mark?)
    ensures Keeps(g, D(pc), DeliverStep(g, pc, c))
  {}

  lemma DeliverKeeps(g: Shared, pc: DeliverPc, c: Choice)
    requires SharedInv(g) && PcInv(g, D(pc))
    ensures Keeps(g, D(pc), DeliverStep(g, pc, c))
  {
    match pc
    case Reserve(_) => ReserveKeeps(g, pc, c);
    case Finalize(_) => ReserveKeeps(g, pc, c);
    case CallSend => SendKeeps(g, c);
    case Record(_) => RecordKeeps(g, pc, c);
    case Mark(_) => RecordKeeps(g, pc, c);
    case _ => DeliverReadKeeps(g, pc, c);
  }

  predicate RecoveryReads(pc: RecoverPc) { pc.RecoverRead? || pc.WakeLookup? || pc.Unwoken? || pc.AmbientRead? }

  lemma RecoveryReadKeeps(g: Shared, host: nat, pc: RecoverPc, c: Choice)
    requires SharedInv(g) && PcInv(g, V(pc)) && Fits(c) && RecoveryReads(pc)
    ensures Keeps(g, V(pc), RecoverStep(g, host, pc, c))
  {}

  lemma ClearIsQuiet(g: Shared, now: nat)
    requires SharedInv(g) && g.row.Some?
    ensures Quiet(g, Apply(g, ClearExpiredRouting(g.row.value, now)))
  {}

  lemma IgnoreIsQuiet(g: Shared, now: nat)
    requires SharedInv(g) && g.row.Some?
    ensures Quiet(g, Apply(g, IgnoreExpired(g.row.value, now)))
  {}

  lemma PromoteIsQuiet(g: Shared, now: nat)
    requires SharedInv(g) && g.row.Some?
    ensures Quiet(g, Apply(g, PromoteExpired(g.row.value, now, g.ambient)))
  {}

  lemma ExpiryIsQuiet(g: Shared, now: nat)
    requires SharedInv(g) && g.row.Some?
    ensures Quiet(g, Apply(g, ExpireQueueing(g.row.value, now)))
  {}

  lemma AmbientIsQuiet(g: Shared, reason: Reason)
    requires SharedInv(g) && g.row.Some? && !OwnershipMark(reason) && reason != RoutineWake
    ensures Quiet(g, Apply(g, IgnoreAmbient(g.row.value)))
    ensures Quiet(g, Apply(g, PromoteAmbient(g.row.value, reason)))
  {}

  lemma RecoveryQuietKeeps(g: Shared, pc: RecoverPc, m: Moved)
    requires Quiet(g, m.g) && m.pc.Done?
    ensures Keeps(g, V(pc), m)
  {}

  lemma RecoverKeeps(g: Shared, host: nat, pc: RecoverPc, c: Choice)
    requires SharedInv(g) && PcInv(g, V(pc)) && Fits(c)
    ensures Keeps(g, V(pc), RecoverStep(g, host, pc, c))
  {
    if RecoveryReads(pc) {
      RecoveryReadKeeps(g, host, pc, c);
    } else {
      LeavingIsQuiet(g, host);
      if g.row.Some? && !c.fail {
        match pc
        case Startup(now) => ClearIsQuiet(g, now);
        case ClearRouting(now) => ClearIsQuiet(g, now);
        case IgnoreWoken(now) => IgnoreIsQuiet(g, now);
        case Promote(now) => PromoteIsQuiet(g, now);
        case ExpireQueue(now) => ExpiryIsQuiet(g, now);
        case AmbientIgnore => AmbientIsQuiet(g, NoReason);
        case AmbientPromote(reason) => AmbientIsQuiet(g, reason);
      }
      RecoveryQuietKeeps(g, pc, RecoverStep(g, host, pc, c));
    }
  }

  lemma ActKeeps(g: Shared, host: nat, pc: Pc, c: Choice)
    requires SharedInv(g) && PcInv(g, pc) && Fits(c)
    ensures Keeps(g, pc, Act(g, host, pc, c))
  {
    match pc
    case H(h) => HandlerKeeps(g, host, h, c);
    case Q(q) => QueueKeeps(g, q, c);
    case D(d) => DeliverKeeps(g, d, c);
    case V(v) => RecoverKeeps(g, host, v, c);
    case Done =>
  }

  /** A bystander's assertion survives anything that only grows the state, unless the step is a
      send and the bystander is itself about to send. */
  lemma BystanderKeeps(g: Shared, g': Shared, pc: Pc)
    requires SharedInv(g) && SharedInv(g') && Grows(g, g') && PcInv(g, pc)
    requires Pending(pc) ==> g'.log == g.log
    ensures PcInv(g', pc)
  {}

  lemma StepKeeps(s: State, pid: nat, c: Choice)
    requires Inv(s) && Enabled(s, Step(pid, c))
    ensures Inv(Next(s, Step(pid, c))) && Grows(s.g, Next(s, Step(pid, c)).g)
  {
    var p := s.procs[pid];
    var m := Act(s.g, p.host, p.pc, c);
    var s' := Next(s, Step(pid, c));
    ActKeeps(s.g, p.host, p.pc, c);
    forall q | q in s'.procs ensures PcInv(s'.g, s'.procs[q].pc) {
      if q != pid {
        SoleSender(s, pid, q, c);
        BystanderKeeps(s.g, m.g, s.procs[q].pc);
      }
    }
    OnePendingStays(s, pid, c);
  }

  /** Who sends is the only one about to send. */
  lemma SoleSender(s: State, pid: nat, q: nat, c: Choice)
    requires Inv(s) && Enabled(s, Step(pid, c)) && q in s.procs && q != pid
    requires Keeps(s.g, s.procs[pid].pc, Act(s.g, s.procs[pid].host, s.procs[pid].pc, c))
    ensures Pending(s.procs[q].pc) ==> Act(s.g, s.procs[pid].host, s.procs[pid].pc, c).g.log == s.g.log
  {}

  lemma OnePendingStays(s: State, pid: nat, c: Choice)
    requires Inv(s) && Enabled(s, Step(pid, c))
    requires Keeps(s.g, s.procs[pid].pc, Act(s.g, s.procs[pid].host, s.procs[pid].pc, c))
    ensures OnePending(Next(s, Step(pid, c)).procs)
  {
    var m := Act(s.g, s.procs[pid].host, s.procs[pid].pc, c);
    if Pending(m.pc) && !Pending(s.procs[pid].pc) {
      forall q | q in s.procs ensures !Pending(s.procs[q].pc) {
        assert PcInv(s.g, s.procs[q].pc);
      }
    }
  }

  lemma NextKeeps(s: State, e: Event)
    requires Inv(s) && Enabled(s, e)
    ensures Inv(Next(s, e)) && Grows(s.g, Next(s, e).g)
  {
    match e
    case Step(pid, c) => StepKeeps(s, pid, c);
    case _ => OtherKeeps(s, e);
  }

  /** Time, new processes, crashes and the end of the run. */
  lemma OtherKeeps(s: State, e: Event)
    requires Inv(s) && Enabled(s, e) && !e.Step?
    ensures Inv(Next(s, e)) && Grows(s.g, Next(s, e).g)
  {
    var s' := Next(s, e);
    forall q | q in s'.procs && q in s.procs ensures PcInv(s'.g, s'.procs[q].pc) {
      BystanderKeeps(s.g, s'.g, s.procs[q].pc);
    }
  }

  lemma GrowsTransitive(a: Shared, b: Shared, c: Shared)
    requires Grows(a, b) && Grows(b, c)
    ensures Grows(a, c)
  {}

  /** The invariant is inductive over whole runs, and nothing it protects is ever taken back. */
  lemma {:induction false} RunKeeps(s: State, es: seq<Event>)
    requires Inv(s) && Legal(s, es)
    ensures Inv(After(s, es)) && Grows(s.g, After(s, es).g)
    decreases |es|
  {
    if es != [] {
      var s' := Next(s, es[0]);
      NextKeeps(s, es[0]);
      RunKeeps(s', es[1..]);
      GrowsTransitive(s.g, s'.g, After(s, es).g);
    }
  }

  ghost predicate Reachable(s: State) {
    exists ambient, es :: Legal(Init(ambient), es) && After(Init(ambient), es) == s
  }

  lemma ReachableInv(s: State)
    requires Reachable(s)
    ensures Inv(s)
  {
    var ambient, es :| Legal(Init(ambient), es) && After(Init(ambient), es) == s;
    RunKeeps(Init(ambient), es);
  }
}
