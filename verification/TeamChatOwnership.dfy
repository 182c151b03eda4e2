/** Exclusive ownership: an event is answered by a routine wake or by an agent run, not both.
    It rests on three assumptions about a run, each of which TeamChatRaces shows to be needed.
    Without any assumption, exactly two kinds of step can break it. */
module TeamChatOwnership {
  import opened Wrappers
  import opened TeamChatRows
  import opened TeamChatProtocol
  import opened TeamChatSafety
  import opened TeamChatTiming

  // ----- assumptions -----

  /** A handler between winning its deferred reservation and resolving it, or one whose wake runs on. */
  predicate HandlerHolds(pc: Pc) {
    && pc.H?
    && (|| pc.h.Extend? || pc.h.Waiting? || pc.h.Resolving? || pc.h.Releasing?
        || (pc.h.Detached? && !pc.h.wake.Settled?))
  }

  /** A queue call between winning its claim and linking, abandoning or giving the row back. */
  predicate QueueHolds(pc: Pc) {
    && pc.Q?
    && (|| pc.q.SecondCheck? || pc.q.LatestRead? || pc.q.ThirdCheck? || pc.q.SendAgent?
        || pc.q.FourthCheck? || pc.q.CancelRun? || pc.q.Abandon? || pc.q.Link?
        || pc.q == RetryRead(true) || pc.q == RetryUpdate(Queueing, true))
  }

  /** A queue call past its last look at the wake nonce. */
  predicate Linking(pc: Pc) { pc.Q? && pc.q.Link? }

  /** Somebody whose next step relies on the row: a handler, or a call that missed a committed wake. */
  ghost predicate SomeHolder(s: State) {
    exists p :: p in s.procs && (HandlerHolds(s.procs[p].pc) || (s.g.woken && Linking(s.procs[p].pc)))
  }

  /** No such holder outlives the reservation on the row. */
  ghost predicate LeaseHolds(s: State) { SomeHolder(s) ==> !Lapsed(s.g) }

  /** No queue call outlives the claim on the row. */
  ghost predicate ClaimHolds(s: State) {
    (exists p :: p in s.procs && QueueHolds(s.procs[p].pc)) ==> !Lapsed(s.g)
  }

  /** Reservation stamps are unique: a redelivery never computes the stamp already stored. */
  predicate FreshStamp(s: State, e: Event)
    requires Enabled(s, e)
  {
    e.Step? && !e.choice.fail && s.procs[e.pid].pc.H? && s.procs[e.pid].pc.h.Upsert? && s.g.row.Some? ==>
      !(s.g.row.value.status == Deferred
        && s.g.row.value.lease == Some(s.procs[e.pid].pc.h.now + DEFERRED_RESERVATION_MS))
  }

  /** While the wake is pending the heartbeat ends only in held or lost, never in another error. */
  predicate SteadyBeat(s: State, e: Event)
    requires Enabled(s, e)
  {
    e.Step? && s.procs[e.pid].pc.H? && s.procs[e.pid].pc.h.Waiting? && s.procs[e.pid].pc.h.beat == Beating
    && !s.procs[e.pid].pc.h.wake.Settled? && e.choice.who == ByBeat ==>
      !e.choice.fail
  }

  /** A retry puts a queueing row back only if its own call made a claim. */
  predicate OwnRetry(s: State, e: Event)
    requires Enabled(s, e)
  {
    e.Step? && s.procs[e.pid].pc == Q(RetryUpdate(Queueing, false)) ==> e.choice.fail || !RowIs(s.g, Queueing)
  }

  /** A retry never sets the lease of a deferred row back. */
  predicate LastingLease(s: State, e: Event)
    requires Enabled(s, e)
  {
    e.Step? ==> !ShorteningRetry(s.g, s.procs[e.pid].pc, e.choice)
  }

  /** Which assumptions a run is held to. */
  datatype Discipline = Discipline(leases: bool, claims: bool, stamps: bool, beats: bool, retries: bool, lasting: bool)

  ghost predicate Allowed(d: Discipline, s: State, e: Event)
    requires Enabled(s, e)
  {
    && (d.stamps ==> FreshStamp(s, e))
    && (d.beats ==> SteadyBeat(s, e))
    && (d.retries ==> OwnRetry(s, e))
    && (d.lasting ==> LastingLease(s, e))
  }

  /** Every state and every step of the run meets the assumptions. */
  ghost predicate Disciplined(d: Discipline, s: State, es: seq<Event>)
    requires Legal(s, es)
    decreases |es|
  {
    && (d.leases ==> LeaseHolds(s))
    && (d.claims ==> ClaimHolds(s))
    && (es == [] || (Allowed(d, s, es[0]) && Disciplined(d, Next(s, es[0]), es[1..])))
  }

  // ----- the invariant -----

  /** The handler has seen its own wake commit. */
  predicate SawWake(pc: Pc) {
    && pc.H?
    && (|| (pc.h.Waiting? && pc.h.wake == Settled(Woken)) || (pc.h.Resolving? && pc.h.woken))
  }

  ghost predicate SomeLinker(procs: map<nat, Proc>) { exists p :: p in procs && Linking(procs[p].pc) }

  predicate Released(pc: Pc) { pc.H? && (pc.h.Releasing? || pc.h.Detached?) }

  ghost predicate OneHandler(procs: map<nat, Proc>) {
    forall p, q :: p in procs && q in procs && HandlerHolds(procs[p].pc) && HandlerHolds(procs[q].pc) ==> p == q
  }

  ghost predicate OwnerInv(s: State) {
    && (forall p :: p in s.procs ==> !Released(s.procs[p].pc))
    && (forall p :: p in s.procs && HandlerHolds(s.procs[p].pc) ==> RowIs(s.g, Deferred))
    && OneHandler(s.procs)
    && (s.g.woken ==> !RowLinked(s.g))
    && (s.g.woken && SomeLinker(s.procs) ==>
          && (RowIs(s.g, Deferred) || RowIs(s.g, Ignored))
          && forall p :: p in s.procs && HandlerHolds(s.procs[p].pc) ==> SawWake(s.procs[p].pc))
  }

  // ----- one step, seen from the row -----

  /** A deferred row that nobody sees as expired is left deferred by everyone but the handler that
      resolves it. */
  lemma DeferredStays(g: Shared, host: nat, pc: Pc, c: Choice)
    requires SharedInv(g) && PcInv(g, pc) && PastInv(g, pc) && Fits(c)
    requires RowIs(g, Deferred) && !Lapsed(g)
    requires !(pc.H? && pc.h.Resolving?) && !Released(pc)
    ensures RowIs(Act(g, host, pc, c).g, Deferred)
  {
    match pc
    case H(h) => HandlerLeavesDeferred(g, host, h, c);
    case Q(q) =>
    case D(d) =>
    case V(v) =>
    case Done =>
  }

  lemma HandlerLeavesDeferred(g: Shared, host: nat, h: HandlerPc, c: Choice)
    requires RowIs(g, Deferred) && !h.Resolving? && !h.Releasing? && !h.Detached?
    ensures RowIs(HandlerStep(g, host, h, c).g, Deferred)
  {
    match h
    case Waiting(wake, beat) => WaitingCases(g, wake, beat, c);
    case _ =>
  }

  /** Only a row that is free or has expired lets a new handler in. */
  lemma HandlerEnters(g: Shared, host: nat, pc: Pc, c: Choice)
    requires PastInv(g, pc) && Fits(c) && !HandlerHolds(pc)
    requires HandlerHolds(Act(g, host, pc, c).pc)
    ensures pc.H? && (pc.h.Upsert? || pc.h.Claim? || Released(pc))
    ensures !Released(pc) ==> RowIs(Act(g, host, pc, c).g, Deferred)
    ensures pc.H? && pc.h.Claim? ==>
              RowIs(g, Received) || RowIs(g, Observed) || (RowIs(g, Deferred) && Lapsed(g))
    ensures pc.H? && pc.h.Upsert? && g.row.Some? ==>
              RowIs(g, Deferred) && g.row.value.lease == Some(pc.h.now + DEFERRED_RESERVATION_MS)
  {}

  /** Only a handler at its send commits the wake. */
  lemma WakeCommits(g: Shared, host: nat, pc: Pc, c: Choice)
    requires Fits(c) && !Released(pc) && !g.woken
    requires Act(g, host, pc, c).g.woken
    ensures HandlerHolds(pc) && SawWake(Act(g, host, pc, c).pc)
  {}

  /** A holding handler keeps what it saw, and resolves accordingly. */
  lemma HandlerRemembers(g: Shared, host: nat, pc: Pc, c: Choice)
    requires Fits(c) && HandlerHolds(pc) && SawWake(pc)
    ensures var m := Act(g, host, pc, c);
            && (HandlerHolds(m.pc) ==> SawWake(m.pc))
            && (RowIs(g, Deferred) ==> RowIs(m.g, Deferred) || RowIs(m.g, Ignored))
            && (g.woken ==> m.g.woken)
  {
    if pc.h.Waiting? { WaitingCases(g, pc.h.wake, pc.h.beat, c); }
  }

  lemma NoRelease(g: Shared, host: nat, pc: Pc, c: Choice)
    requires Fits(c) && !Released(pc)
    requires pc.H? && pc.h.Waiting? && pc.h.beat == Beating && !pc.h.wake.Settled? && c.who == ByBeat ==> !c.fail
    ensures !Released(Act(g, host, pc, c).pc)
  {}

  lemma IgnoredStays(g: Shared, host: nat, pc: Pc, c: Choice)
    requires SharedInv(g) && PcInv(g, pc) && Fits(c) && RowIs(g, Ignored)
    ensures RowIs(Act(g, host, pc, c).g, Ignored)
  {
    ActKeeps(g, host, pc, c);
  }

  // ----- one step, seen from the state -----

  lemma HolderIsSomeHolder(s: State, p: nat)
    requires p in s.procs && (HandlerHolds(s.procs[p].pc) || (s.g.woken && Linking(s.procs[p].pc)))
    ensures SomeHolder(s)
  {}

  lemma HoldersSeeDeferred(s: State, pid: nat, c: Choice, p: nat)
    requires Inv(s) && OwnerInv(s) && ClockInv(s) && LeaseHolds(s) && Enabled(s, Step(pid, c))
    requires var s' := Next(s, Step(pid, c)); p in s'.procs && HandlerHolds(s'.procs[p].pc)
    ensures RowIs(Next(s, Step(pid, c)).g, Deferred)
  {
    var actor := s.procs[pid];
    if HandlerHolds(s.procs[p].pc) {
      HolderIsSomeHolder(s, p);
      if !(actor.pc.H? && actor.pc.h.Resolving?) {
        DeferredStays(s.g, actor.host, actor.pc, c);
      }
    } else {
      HandlerEnters(s.g, actor.host, actor.pc, c);
    }
  }

  lemma OneHandlerStays(s: State, pid: nat, c: Choice)
    requires Inv(s) && OwnerInv(s) && ClockInv(s) && LeaseHolds(s)
    requires Enabled(s, Step(pid, c)) && FreshStamp(s, Step(pid, c))
    ensures OneHandler(Next(s, Step(pid, c)).procs)
  {
    var s' := Next(s, Step(pid, c));
    var actor := s.procs[pid];
    if HandlerHolds(s'.procs[pid].pc) && !HandlerHolds(actor.pc) {
      HandlerEnters(s.g, actor.host, actor.pc, c);
      forall q | q in s.procs && q != pid ensures !HandlerHolds(s.procs[q].pc) {
        if HandlerHolds(s.procs[q].pc) { HolderIsSomeHolder(s, q); assert false; }
      }
    }
  }

  lemma WokenNeverLinked(s: State, pid: nat, c: Choice)
    requires Inv(s) && OwnerInv(s) && ClockInv(s) && LeaseHolds(s) && Enabled(s, Step(pid, c))
    ensures var g' := Next(s, Step(pid, c)).g; g'.woken ==> !RowLinked(g')
  {
    var actor := s.procs[pid];
    ActKeeps(s.g, actor.host, actor.pc, c);
    if Act(s.g, actor.host, actor.pc, c).g.woken && !s.g.woken {
      WakeCommits(s.g, actor.host, actor.pc, c);
    }
  }

  /** The step that commits the wake leaves the row deferred, and its handler has seen it. */
  lemma WakeShutsOut(s: State, pid: nat, c: Choice)
    requires OwnerInv(s) && Enabled(s, Step(pid, c)) && !s.g.woken && Next(s, Step(pid, c)).g.woken
    ensures var s' := Next(s, Step(pid, c));
            && RowIs(s'.g, Deferred)
            && forall p :: p in s'.procs && HandlerHolds(s'.procs[p].pc) ==> SawWake(s'.procs[p].pc)
  {
    var actor := s.procs[pid];
    WakeCommits(s.g, actor.host, actor.pc, c);
    if !(actor.pc.h.Resolving?) { HandlerLeavesDeferred(s.g, actor.host, actor.pc.h, c); }
  }

  /** While somebody is about to link after the wake committed, the row stays out of reach. */
  lemma LinkersAreShutOut(s: State, pid: nat, c: Choice)
    requires Inv(s) && OwnerInv(s) && ClockInv(s) && LeaseHolds(s)
    requires Enabled(s, Step(pid, c)) && FreshStamp(s, Step(pid, c))
    requires var s' := Next(s, Step(pid, c)); s'.g.woken && SomeLinker(s'.procs)
    ensures var s' := Next(s, Step(pid, c));
            && (RowIs(s'.g, Deferred) || RowIs(s'.g, Ignored))
            && forall p :: p in s'.procs && HandlerHolds(s'.procs[p].pc) ==> SawWake(s'.procs[p].pc)
  {
    var s' := Next(s, Step(pid, c));
    var actor := s.procs[pid];
    var m := Act(s.g, actor.host, actor.pc, c);
    ActKeeps(s.g, actor.host, actor.pc, c);
    if !s.g.woken {
      WakeShutsOut(s, pid, c);
    } else {
      var l :| l in s'.procs && Linking(s'.procs[l].pc);
      HolderIsSomeHolder(s, l);
      assert SomeLinker(s.procs);
      if RowIs(s.g, Ignored) {
        IgnoredStays(s.g, actor.host, actor.pc, c);
      } else if actor.pc.H? && actor.pc.h.Resolving? {
        HandlerRemembers(s.g, actor.host, actor.pc, c);
      } else {
        DeferredStays(s.g, actor.host, actor.pc, c);
      }
      HoldersHaveSeen(s, pid, c);
    }
  }

  lemma HoldersHaveSeen(s: State, pid: nat, c: Choice)
    requires OwnerInv(s) && ClockInv(s) && LeaseHolds(s) && Enabled(s, Step(pid, c)) && FreshStamp(s, Step(pid, c))
    requires s.g.woken && SomeLinker(s.procs)
    ensures var s' := Next(s, Step(pid, c));
            forall p :: p in s'.procs && HandlerHolds(s'.procs[p].pc) ==> SawWake(s'.procs[p].pc)
  {
    var actor := s.procs[pid];
    var l :| l in s.procs && Linking(s.procs[l].pc);
    HolderIsSomeHolder(s, l);
    if HandlerHolds(actor.pc) {
      HandlerRemembers(s.g, actor.host, actor.pc, c);
    } else if HandlerHolds(Act(s.g, actor.host, actor.pc, c).pc) {
      HandlerEnters(s.g, actor.host, actor.pc, c);
      assert false;
    }
  }

  lemma OwnerStep(s: State, pid: nat, c: Choice)
    requires Inv(s) && OwnerInv(s) && ClockInv(s) && LeaseHolds(s) && Enabled(s, Step(pid, c))
    requires FreshStamp(s, Step(pid, c)) && SteadyBeat(s, Step(pid, c))
    ensures OwnerInv(Next(s, Step(pid, c)))
  {
    var s' := Next(s, Step(pid, c));
    var actor := s.procs[pid];
    ActKeeps(s.g, actor.host, actor.pc, c);
    NoRelease(s.g, actor.host, actor.pc, c);
    forall p | p in s'.procs && HandlerHolds(s'.procs[p].pc) ensures RowIs(s'.g, Deferred) {
      HoldersSeeDeferred(s, pid, c, p);
    }
    OneHandlerStays(s, pid, c);
    WokenNeverLinked(s, pid, c);
    if s'.g.woken && SomeLinker(s'.procs) { LinkersAreShutOut(s, pid, c); }
  }

  lemma OwnerNext(s: State, e: Event)
    requires Inv(s) && OwnerInv(s) && ClockInv(s) && LeaseHolds(s)
    requires Enabled(s, e) && FreshStamp(s, e) && SteadyBeat(s, e)
    ensures OwnerInv(Next(s, e))
  {
    match e
    case Step(pid, c) => OwnerStep(s, pid, c);
    case _ => OwnerOther(s, e);
  }

  /** Time, new processes, crashes and the end of the run. */
  lemma OwnerOther(s: State, e: Event)
    requires OwnerInv(s) && Enabled(s, e) && !e.Step?
    ensures OwnerInv(Next(s, e))
  {
    var s' := Next(s, e);
    assert forall p :: p in s'.procs && HandlerHolds(s'.procs[p].pc) ==> p in s.procs && s'.procs[p] == s.procs[p];
    if SomeLinker(s'.procs) {
      var l :| l in s'.procs && Linking(s'.procs[l].pc);
      assert l in s.procs && Linking(s.procs[l].pc);
    }
  }

  const TIMED := Discipline(true, false, true, true, false, false)

  lemma {:induction false} OwnerRun(s: State, es: seq<Event>)
    requires Inv(s) && ClockInv(s) && OwnerInv(s) && Legal(s, es) && Disciplined(TIMED, s, es)
    ensures OwnerInv(After(s, es))
    decreases |es|
  {
    if es != [] {
      NextKeeps(s, es[0]);
      ClockNext(s, es[0]);
      OwnerNext(s, es[0]);
      OwnerRun(Next(s, es[0]), es[1..]);
    }
  }

  /** With any number of bridges, redeliveries and crashes: no event has both a committed routine
      wake and a row that reached running, delivering or delivered. */
  lemma ExclusiveOwnership(ambient: bool, es: seq<Event>)
    requires Legal(Init(ambient), es) && Disciplined(TIMED, Init(ambient), es)
    ensures !BothOwn(After(Init(ambient), es).g)
  {
    OwnerRun(Init(ambient), es);
  }

  // ----- without any assumption -----

  /** A committed wake and a row that reached running, delivering or delivered. */
  ghost predicate BothOwn(g: Shared) { g.woken && RowLinked(g) }

  /** The wake of a handler, whether it still waits for it or has given the row up, commits. */
  predicate CommitsWake(pc: Pc, c: Choice) {
    && pc.H? && c.who == ByWake && !c.fail
    && (pc.h.Waiting? || pc.h.Releasing? || pc.h.Detached?) && pc.h.wake == Sending
  }

  /** A queue call past its last look at the nonce links the row. */
  predicate LinksRow(g: Shared, pc: Pc, c: Choice) { Linking(pc) && !c.fail && RowIs(g, Queueing) }

  lemma HandlerLinksNothing(g: Shared, host: nat, h: HandlerPc, c: Choice)
    requires SharedInv(g)
    ensures var g' := HandlerStep(g, host, h, c).g;
            && (RowLinked(g') <==> RowLinked(g))
            && (g'.woken <==> g.woken || CommitsWake(H(h), c))
  {
    HandlerKeeps(g, host, h, c);
    HandlerWakes(g, host, h, c);
  }

  lemma HandlerWakes(g: Shared, host: nat, h: HandlerPc, c: Choice)
    ensures HandlerStep(g, host, h, c).g.woken <==> g.woken || CommitsWake(H(h), c)
  {}

  lemma QueueOwns(g: Shared, q: QueuePc, c: Choice)
    requires SharedInv(g) && PcInv(g, Q(q)) && Fits(c)
    ensures var g' := QueueStep(g, q, c).g;
            && g'.woken == g.woken
            && (RowLinked(g') <==> RowLinked(g) || LinksRow(g, Q(q), c))
  {
    QueueKeeps(g, q, c);
  }

  /** The wake is committed and the row is linked by exactly these steps. */
  lemma StepOwns(g: Shared, host: nat, pc: Pc, c: Choice)
    requires SharedInv(g) && PcInv(g, pc) && Fits(c)
    ensures var g' := Act(g, host, pc, c).g;
            && (g'.woken <==> g.woken || CommitsWake(pc, c))
            && (RowLinked(g') <==> RowLinked(g) || LinksRow(g, pc, c))
  {
    match pc
    case H(h) => HandlerLinksNothing(g, host, h, c);
    case Q(q) => QueueOwns(g, q, c);
    case D(d) => DeliverKeeps(g, d, c);
    case V(v) => RecoverKeeps(g, host, v, c);
    case Done =>
  }

  /** In every reachable state: a step gives the event a second owner if and only if it is a wake
      that commits while the row is linked, or a link while the wake is committed. */
  lemma WhoBecomesSecondOwner(s: State, e: Event)
    requires Reachable(s) && Enabled(s, e) && !BothOwn(s.g)
    ensures BothOwn(Next(s, e).g)
            <==> e.Step? && (|| (RowLinked(s.g) && CommitsWake(s.procs[e.pid].pc, e.choice))
                             || (s.g.woken && LinksRow(s.g, s.procs[e.pid].pc, e.choice)))
  {
    ReachableInv(s);
    if e.Step? {
      var p := s.procs[e.pid];
      assert PcInv(s.g, p.pc);
      StepOwns(s.g, p.host, p.pc, e.choice);
    }
  }
}
