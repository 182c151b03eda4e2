/** Clocks and leases, with no assumption on a run: what a lease can be, and exactly which steps
    shorten a lease or take a claim that is still running. */
module TeamChatTiming {
  import opened Wrappers
  import opened TeamChatRows
  import opened TeamChatProtocol
  import opened TeamChatSafety

  predicate RowIs(g: Shared, status: Status) { g.row.Some? && g.row.value.status == status }

  /** The row looks expired to somebody. */
  predicate Lapsed(g: Shared) {
    (RowIs(g, Deferred) || RowIs(g, Queueing)) && Expired(g.row.value, g.clock)
  }

  /** Captured times lie in the past. */
  ghost predicate PastInv(g: Shared, pc: Pc) {
    match pc
    case H(Claim(now)) => now <= g.clock
    case H(Upsert(now)) => now <= g.clock
    case V(Startup(now)) => now <= g.clock
    case V(RecoverRead(now)) => now <= g.clock
    case V(WakeLookup(now, _)) => now <= g.clock
    case V(Unwoken(now, _)) => now <= g.clock
    case V(IgnoreWoken(now)) => now <= g.clock
    case V(ClearRouting(now)) => now <= g.clock
    case V(Promote(now)) => now <= g.clock
    case V(ExpireQueue(now)) => now <= g.clock
    case _ => true
  }

  /** No reservation reaches further than the longest one that can be made now. */
  ghost predicate LeaseInv(g: Shared) {
    && (RowIs(g, Deferred) ==> g.row.value.lease.Some? && g.row.value.lease.value <= g.clock + ROUTING_RESERVATION_MS)
    && (RowIs(g, Queueing) ==> g.row.value.lease.Some? && g.row.value.lease.value <= g.clock + QUEUE_RESERVATION_MS)
  }

  ghost predicate ClockInv(s: State) {
    LeaseInv(s.g) && forall p :: p in s.procs ==> PastInv(s.g, s.procs[p].pc)
  }

  lemma ClockStands(g: Shared, host: nat, pc: Pc, c: Choice)
    requires Fits(c)
    ensures Act(g, host, pc, c).g.clock == g.clock
  {
    match pc
    case H(h) => HandlerClock(g, host, h, c);
    case _ =>
  }

  lemma HandlerClock(g: Shared, host: nat, h: HandlerPc, c: Choice)
    ensures HandlerStep(g, host, h, c).g.clock == g.clock
  {}

  lemma PastStays(g: Shared, host: nat, pc: Pc, c: Choice)
    requires Fits(c) && PastInv(g, pc)
    ensures PastInv(Act(g, host, pc, c).g, Act(g, host, pc, c).pc)
  {
    ClockStands(g, host, pc, c);
  }

  lemma HandlerLeases(g: Shared, host: nat, h: HandlerPc, c: Choice)
    requires LeaseInv(g) && PastInv(g, H(h))
    ensures LeaseInv(HandlerStep(g, host, h, c).g)
  {
    RenewalLeases(g);
    match h
    case Waiting(wake, beat) => WaitingCases(g, wake, beat, c); WakeLeases(g, wake, c);
    case Resolving(_, _) => ReleaseLeases(g);
    case Releasing(wake) => ReleaseLeases(g); WakeLeases(g, wake, c);
    case Detached(wake, _) => WakeLeases(g, wake, c);
    case Finishing(_) =>
    case Trailing =>
    case _ => ReceiveLeases(g, host, h, c);
  }

  lemma RenewalLeases(g: Shared)
    requires LeaseInv(g)
    ensures LeaseInv(Extended(g).0)
  {}

  lemma WakeLeases(g: Shared, wake: Wake, c: Choice)
    requires LeaseInv(g)
    ensures LeaseInv(WakeStep(g, wake, c).0)
  {}

  lemma ReleaseLeases(g: Shared)
    requires LeaseInv(g)
    ensures g.row.Some? ==> LeaseInv(Apply(g, ResolveRoutine(g.row.value)))
    ensures g.row.Some? ==> LeaseInv(Apply(g, ResolveAgent(g.row.value, g.ambient)))
  {}

  lemma ReceiveLeases(g: Shared, host: nat, h: HandlerPc, c: Choice)
    requires LeaseInv(g) && PastInv(g, H(h)) && (h.ReceivePlain? || h.Upsert? || h.Claim? || h.Extend?)
    ensures LeaseInv(HandlerStep(g, host, h, c).g)
  {}

  lemma QueueLeases(g: Shared, q: QueuePc, c: Choice)
    requires LeaseInv(g) && SharedInv(g) && PcInv(g, Q(q)) && Fits(c)
    ensures LeaseInv(QueueStep(g, q, c).g)
  {}

  lemma LeasesStay(g: Shared, host: nat, pc: Pc, c: Choice)
    requires LeaseInv(g) && PastInv(g, pc) && SharedInv(g) && PcInv(g, pc) && Fits(c)
    ensures LeaseInv(Act(g, host, pc, c).g)
  {
    match pc
    case H(h) => HandlerLeases(g, host, h, c);
    case Q(q) => QueueLeases(g, q, c);
    case D(d) => DeliveryLeases(g, d, c);
    case V(v) => RecoveryLeases(g, host, v, c);
    case Done =>
  }

  lemma DeliveryLeases(g: Shared, d: DeliverPc, c: Choice)
    requires LeaseInv(g) && SharedInv(g) && PcInv(g, D(d))
    ensures LeaseInv(DeliverStep(g, d, c).g)
  {}

  lemma RecoveryLeases(g: Shared, host: nat, v: RecoverPc, c: Choice)
    requires LeaseInv(g) && PastInv(g, V(v))
    ensures LeaseInv(RecoverStep(g, host, v, c).g)
  {}

  lemma ClockNext(s: State, e: Event)
    requires Inv(s) && ClockInv(s) && Enabled(s, e)
    ensures ClockInv(Next(s, e))
  {
    if e.Step? {
      var p := s.procs[e.pid];
      PastStays(s.g, p.host, p.pc, e.choice);
      LeasesStay(s.g, p.host, p.pc, e.choice);
      ClockStands(s.g, p.host, p.pc, e.choice);
    }
  }

  lemma {:induction false} ClockRun(s: State, es: seq<Event>)
    requires Inv(s) && ClockInv(s) && Legal(s, es)
    ensures ClockInv(After(s, es))
    decreases |es|
  {
    if es != [] {
      NextKeeps(s, es[0]);
      ClockNext(s, es[0]);
      ClockRun(Next(s, es[0]), es[1..]);
    }
  }

  lemma ReachableClock(s: State)
    requires Reachable(s)
    ensures Inv(s) && ClockInv(s)
  {
    var ambient, es :| Legal(Init(ambient), es) && After(Init(ambient), es) == s;
    RunKeeps(Init(ambient), es);
    ClockRun(Init(ambient), es);
  }

  // ----- who shortens a lease -----

  /** The row stays deferred, under a shorter lease. */
  predicate Shortens(g: Shared, g': Shared)
    requires RowIs(g, Deferred) && g.row.value.lease.Some?
  {
    RowIs(g', Deferred) && (g'.row.value.lease.Some? ==> g'.row.value.lease.value < g.row.value.lease.value)
  }

  /** A retry that finds the row deferred and would set its lease back. */
  predicate ShorteningRetry(g: Shared, pc: Pc, c: Choice) {
    && pc.Q? && pc.q.RetryUpdate? && pc.q.read == Deferred && !c.fail
    && RowIs(g, Deferred) && g.row.value.lease.Some? && g.clock + c.delay < g.row.value.lease.value
  }

  lemma HandlerShortensNothing(g: Shared, host: nat, h: HandlerPc, c: Choice)
    requires LeaseInv(g) && RowIs(g, Deferred) && !Lapsed(g) && PastInv(g, H(h))
    ensures !Shortens(g, HandlerStep(g, host, h, c).g)
  {
    match h
    case Waiting(wake, beat) => WaitingCases(g, wake, beat, c);
    case Resolving(_, _) => ReleaseCases(g, host, h, c);
    case Releasing(_) => ReleaseCases(g, host, h, c);
    case Detached(_, _) => ReleaseCases(g, host, h, c);
    case Finishing(_) => ReleaseCases(g, host, h, c);
    case Trailing => ReleaseCases(g, host, h, c);
    case _ =>
  }

  lemma StepShortens(g: Shared, host: nat, pc: Pc, c: Choice)
    requires SharedInv(g) && PcInv(g, pc) && LeaseInv(g) && PastInv(g, pc) && Fits(c)
    requires RowIs(g, Deferred) && !Lapsed(g)
    ensures Shortens(g, Act(g, host, pc, c).g) <==> ShorteningRetry(g, pc, c)
  {
    match pc
    case H(h) => HandlerShortensNothing(g, host, h, c);
    case _ =>
  }

  /** In every reachable state a live deferred lease is shortened by exactly one kind of step: a
      `retry` that read the row deferred and whose back-off ends before the lease. */
  lemma LeaseIsShortened(s: State, e: Event)
    requires Reachable(s) && Enabled(s, e) && RowIs(s.g, Deferred) && !Lapsed(s.g)
    ensures s.g.row.value.lease.Some?
    ensures Shortens(s.g, Next(s, e).g) <==> e.Step? && ShorteningRetry(s.g, s.procs[e.pid].pc, e.choice)
  {
    ReachableClock(s);
    if e.Step? { StepShortens(s.g, s.procs[e.pid].host, s.procs[e.pid].pc, e.choice); }
  }

  // ----- who makes a claim -----

  lemma StepMakesClaim(g: Shared, host: nat, pc: Pc, c: Choice)
    requires SharedInv(g) && PcInv(g, pc) && Fits(c) && !RowIs(g, Queueing)
    ensures RowIs(Act(g, host, pc, c).g, Queueing)
            <==> pc == Q(TryClaim) && !c.fail && RowIs(g, Received) && !OwnershipMark(g.row.value.reason)
  {
    match pc
    case H(h) => HandlerClaimsNothing(g, host, h, c);
    case _ =>
  }

  lemma HandlerClaimsNothing(g: Shared, host: nat, h: HandlerPc, c: Choice)
    requires !RowIs(g, Queueing)
    ensures !RowIs(HandlerStep(g, host, h, c).g, Queueing)
  {
    match h
    case Waiting(wake, beat) => WaitingCases(g, wake, beat, c);
    case Resolving(_, _) => ReleaseCases(g, host, h, c);
    case Releasing(_) => ReleaseCases(g, host, h, c);
    case Detached(_, _) => ReleaseCases(g, host, h, c);
    case Finishing(_) => ReleaseCases(g, host, h, c);
    case Trailing => ReleaseCases(g, host, h, c);
    case _ =>
  }

  /** In every reachable state a step claims the row if and only if it is a queue call's claim of a received
      row that carries no ownership mark: never of one that a wake or another call has marked. */
  lemma ClaimIsMade(s: State, e: Event)
    requires Reachable(s) && Enabled(s, e) && !RowIs(s.g, Queueing)
    ensures RowIs(Next(s, e).g, Queueing)
            <==> e.Step? && s.procs[e.pid].pc == Q(TryClaim) && !e.choice.fail
                 && RowIs(s.g, Received) && !OwnershipMark(s.g.row.value.reason)
  {
    ReachableInv(s);
    if e.Step? {
      assert PcInv(s.g, s.procs[e.pid].pc);
      StepMakesClaim(s.g, s.procs[e.pid].host, s.procs[e.pid].pc, e.choice);
    }
  }

  // ----- who takes a claim -----

  /** The steps that may change a row whose queueing claim is still running. */
  predicate TakesClaim(pc: Pc, c: Choice) {
    pc.Q? && !c.fail && (pc.q.Link? || pc.q.Abandon? || (pc.q.RetryUpdate? && pc.q.read == Queueing))
  }

  lemma HandlerLeavesQueueing(g: Shared, host: nat, h: HandlerPc, c: Choice)
    requires RowIs(g, Queueing)
    ensures HandlerStep(g, host, h, c).g.row == g.row
  {
    match h
    case Waiting(wake, beat) => WaitingCases(g, wake, beat, c);
    case Resolving(_, _) => ReleaseCases(g, host, h, c);
    case Releasing(_) => ReleaseCases(g, host, h, c);
    case Detached(_, _) => ReleaseCases(g, host, h, c);
    case Finishing(_) => ReleaseCases(g, host, h, c);
    case Trailing => ReleaseCases(g, host, h, c);
    case _ =>
  }

  lemma StepTakesClaim(g: Shared, host: nat, pc: Pc, c: Choice)
    requires SharedInv(g) && PcInv(g, pc) && PastInv(g, pc) && Fits(c)
    requires RowIs(g, Queueing) && !Lapsed(g)
    ensures Act(g, host, pc, c).g.row != g.row <==> TakesClaim(pc, c)
  {
    match pc
    case H(h) => HandlerLeavesQueueing(g, host, h, c);
    case _ =>
  }

  /** In every reachable state a running claim is changed by exactly three kinds of step: a link, an
      abandonment, and a `retry` that read the row queueing, whichever call they belong to. */
  lemma ClaimIsTaken(s: State, e: Event)
    requires Reachable(s) && Enabled(s, e) && RowIs(s.g, Queueing) && !Lapsed(s.g)
    ensures Next(s, e).g.row != s.g.row <==> e.Step? && TakesClaim(s.procs[e.pid].pc, e.choice)
  {
    ReachableClock(s);
    if e.Step? { StepTakesClaim(s.g, s.procs[e.pid].host, s.procs[e.pid].pc, e.choice); }
  }
}
