/** No message is dropped: a row retired as "a routine took it" was really taken by a routine. This
    needs two assumptions, on claims and on retries, and none on handlers; TeamChatRaces shows that
    neither can go. Without any assumption, exactly one kind of step can write a false mark. */
module TeamChatRouting {
  import opened Wrappers
  import opened TeamChatRows
  import opened TeamChatProtocol
  import opened TeamChatSafety
  import opened TeamChatTiming
  import opened TeamChatOwnership

  /** What a process knows about the wake nonce when it is about to retire the row. A call that
      abandons because it found its claim gone knows nothing. */
  predicate SawNonce(pc: Pc) {
    || SawWake(pc)
    || (pc.Q? && (pc.q.AbandonEarly? || pc.q.CancelRun? || pc.q == Abandon(true)))
    || (pc.V? && pc.v.IgnoreWoken?)
  }

  predicate Marked(g: Shared) { g.row.Some? && g.row.value.reason == RoutineWake }

  ghost predicate NonceInv(s: State) {
    forall p :: p in s.procs && SawNonce(s.procs[p].pc) ==> s.g.woken
  }

  lemma HandlerSees(g: Shared, host: nat, h: HandlerPc, c: Choice)
    requires SawWake(H(h)) ==> g.woken
    ensures SawNonce(HandlerStep(g, host, h, c).pc) ==> HandlerStep(g, host, h, c).g.woken
  {
    if h.Waiting? { WaitingCases(g, h.wake, h.beat, c); }
  }

  lemma StepSees(g: Shared, host: nat, pc: Pc, c: Choice)
    requires Fits(c) && (SawNonce(pc) ==> g.woken)
    ensures SawNonce(Act(g, host, pc, c).pc) ==> Act(g, host, pc, c).g.woken
  {
    match pc
    case H(h) => HandlerSees(g, host, h, c);
    case _ =>
  }

  lemma NonceNext(s: State, e: Event)
    requires Inv(s) && NonceInv(s) && Enabled(s, e)
    ensures NonceInv(Next(s, e))
  {
    NextKeeps(s, e);
    if e.Step? { StepSees(s.g, s.procs[e.pid].host, s.procs[e.pid].pc, e.choice); }
  }

  lemma {:induction false} NonceRun(s: State, es: seq<Event>)
    requires Inv(s) && NonceInv(s) && Legal(s, es)
    ensures NonceInv(After(s, es))
    decreases |es|
  {
    if es != [] {
      NextKeeps(s, es[0]);
      NonceNext(s, es[0]);
      NonceRun(Next(s, es[0]), es[1..]);
    }
  }

  lemma HandlerMarks(g: Shared, host: nat, h: HandlerPc, c: Choice)
    requires (SawWake(H(h)) ==> g.woken) && !Marked(g)
    ensures var g' := HandlerStep(g, host, h, c).g; Marked(g') ==> g'.woken
  {
    match h
    case Waiting(wake, beat) => WaitingCases(g, wake, beat, c);
    case Releasing(_) => ReleaseCases(g, host, h, c);
    case Detached(_, _) => ReleaseCases(g, host, h, c);
    case _ =>
  }

  /** A call abandons a claim without having seen the nonce. */
  predicate BlindAbandon(g: Shared, pc: Pc, c: Choice) {
    pc == Q(Abandon(false)) && !c.fail && RowIs(g, Queueing)
  }

  lemma StepMarks(g: Shared, host: nat, pc: Pc, c: Choice)
    requires SharedInv(g) && PcInv(g, pc) && Fits(c) && (SawNonce(pc) ==> g.woken) && !Marked(g)
    ensures var g' := Act(g, host, pc, c).g;
            Marked(g') && !g'.woken <==> BlindAbandon(g, pc, c) && !g.woken
  {
    match pc
    case H(h) => HandlerMarks(g, host, h, c);
    case _ =>
  }

  /** With no assumption at all: a step retires a row as taken by a routine that has not woken if
      and only if a call abandons a running claim because it found its own gone. */
  lemma WhoMarksWithoutWake(s: State, e: Event)
    requires Reachable(s) && Enabled(s, e) && !Marked(s.g)
    ensures Marked(Next(s, e).g) && !Next(s, e).g.woken
            <==> e.Step? && !s.g.woken && BlindAbandon(s.g, s.procs[e.pid].pc, e.choice)
  {
    var ambient, es :| Legal(Init(ambient), es) && After(Init(ambient), es) == s;
    ReachableInv(s);
    NonceRun(Init(ambient), es);
    if e.Step? {
      var p := s.procs[e.pid];
      assert PcInv(s.g, p.pc) && (SawNonce(p.pc) ==> s.g.woken);
      StepMarks(s.g, p.host, p.pc, e.choice);
    }
  }

  // ----- claims that last -----

  ghost predicate OneClaim(procs: map<nat, Proc>) {
    forall p, q :: p in procs && q in procs && QueueHolds(procs[p].pc) && QueueHolds(procs[q].pc) ==> p == q
  }

  /** A claim is held by one call, which sees its row queueing; nobody abandons without the nonce. */
  ghost predicate ClaimInv(s: State) {
    && (forall p :: p in s.procs && QueueHolds(s.procs[p].pc) ==> RowIs(s.g, Queueing))
    && OneClaim(s.procs)
    && (forall p :: p in s.procs && s.procs[p].pc == Q(Abandon(false)) ==> s.g.woken)
    && (Marked(s.g) ==> s.g.woken)
  }

  lemma QueueingStays(g: Shared, host: nat, pc: Pc, c: Choice)
    requires SharedInv(g) && PcInv(g, pc) && PastInv(g, pc) && Fits(c) && RowIs(g, Queueing) && !Lapsed(g)
    requires !QueueHolds(pc) && !(pc == Q(RetryUpdate(Queueing, false)) && !c.fail)
    ensures RowIs(Act(g, host, pc, c).g, Queueing)
  {
    StepTakesClaim(g, host, pc, c);
  }

  /** The holder of a claim keeps the row queueing for as long as it holds the claim. */
  lemma ClaimIsKept(g: Shared, host: nat, pc: Pc, c: Choice)
    requires SharedInv(g) && PcInv(g, pc) && Fits(c) && RowIs(g, Queueing) && QueueHolds(pc)
    ensures QueueHolds(Act(g, host, pc, c).pc) ==> RowIs(Act(g, host, pc, c).g, Queueing)
  {}

  lemma ClaimIsWon(g: Shared, host: nat, pc: Pc, c: Choice)
    requires Fits(c) && !QueueHolds(pc) && QueueHolds(Act(g, host, pc, c).pc)
    ensures RowIs(g, Received) && RowIs(Act(g, host, pc, c).g, Queueing)
  {}

  /** A call that still holds its claim abandons only for the nonce. */
  lemma AbandonsForTheNonce(g: Shared, host: nat, pc: Pc, c: Choice)
    requires SharedInv(g) && Fits(c) && (QueueHolds(pc) ==> RowIs(g, Queueing))
    requires pc == Q(Abandon(false)) ==> g.woken
    ensures Act(g, host, pc, c).pc == Q(Abandon(false)) ==> Act(g, host, pc, c).g.woken
  {}

  lemma ClaimHoldersSeeQueueing(s: State, pid: nat, c: Choice, p: nat)
    requires Inv(s) && ClockInv(s) && ClaimInv(s) && ClaimHolds(s)
    requires Enabled(s, Step(pid, c)) && OwnRetry(s, Step(pid, c))
    requires var s' := Next(s, Step(pid, c)); p in s'.procs && QueueHolds(s'.procs[p].pc)
    ensures RowIs(Next(s, Step(pid, c)).g, Queueing)
    ensures p != pid ==> !QueueHolds(Next(s, Step(pid, c)).procs[pid].pc)
  {
    var actor := s.procs[pid];
    if QueueHolds(s.procs[p].pc) {
      if p == pid {
        ClaimIsKept(s.g, actor.host, actor.pc, c);
      } else {
        QueueingStays(s.g, actor.host, actor.pc, c);
        if QueueHolds(Next(s, Step(pid, c)).procs[pid].pc) {
          ClaimIsWon(s.g, actor.host, actor.pc, c);
          assert false;
        }
      }
    } else {
      ClaimIsWon(s.g, actor.host, actor.pc, c);
    }
  }

  lemma ClaimStep(s: State, pid: nat, c: Choice)
    requires Inv(s) && ClockInv(s) && NonceInv(s) && ClaimInv(s) && ClaimHolds(s)
    requires Enabled(s, Step(pid, c)) && OwnRetry(s, Step(pid, c))
    ensures ClaimInv(Next(s, Step(pid, c)))
  {
    var s' := Next(s, Step(pid, c));
    var actor := s.procs[pid];
    ActKeeps(s.g, actor.host, actor.pc, c);
    forall p | p in s'.procs && QueueHolds(s'.procs[p].pc)
      ensures RowIs(s'.g, Queueing) && (p != pid ==> !QueueHolds(s'.procs[pid].pc))
    {
      ClaimHoldersSeeQueueing(s, pid, c, p);
    }
    AbandonsForTheNonce(s.g, actor.host, actor.pc, c);
    if !Marked(s.g) { StepMarks(s.g, actor.host, actor.pc, c); }
  }

  lemma ClaimNext(s: State, e: Event)
    requires Inv(s) && ClockInv(s) && NonceInv(s) && ClaimInv(s) && ClaimHolds(s) && Enabled(s, e) && OwnRetry(s, e)
    ensures ClaimInv(Next(s, e))
  {
    match e
    case Step(pid, c) => ClaimStep(s, pid, c);
    case _ =>
  }

  const KEPT := Discipline(false, true, false, false, true, false)

  lemma {:induction false} ClaimRun(s: State, es: seq<Event>)
    requires Inv(s) && ClockInv(s) && NonceInv(s) && ClaimInv(s) && Legal(s, es) && Disciplined(KEPT, s, es)
    ensures ClaimInv(After(s, es))
    decreases |es|
  {
    if es != [] {
      NextKeeps(s, es[0]);
      ClockNext(s, es[0]);
      NonceNext(s, es[0]);
      ClaimNext(s, es[0]);
      ClaimRun(Next(s, es[0]), es[1..]);
    }
  }

  /** If no queue call outlives the claim on the row and retries give back only what their own call
      claimed: a row carries the routine-wake mark only if the routine's wake really committed. */
  lemma RoutineMarkMeansWoken(ambient: bool, es: seq<Event>)
    requires Legal(Init(ambient), es) && Disciplined(KEPT, Init(ambient), es)
    ensures var g := After(Init(ambient), es).g;
            g.row.Some? && g.row.value.reason == RoutineWake ==> g.woken && g.row.value.status == Ignored
  {
    RunKeeps(Init(ambient), es);
    ClaimRun(Init(ambient), es);
  }
}
