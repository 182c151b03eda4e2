/** Reservations as their holders know them: a handler or a queue call remembers until when it
    reserved the row, and nothing else. When everybody keeps within the own reservation and retries
    leave other reservations alone, a holder is the sole holder. */
module TeamChatReservations {
  import opened Wrappers
  import opened TeamChatRows
  import opened TeamChatProtocol
  import opened TeamChatSafety
  import opened TeamChatTiming
  import opened TeamChatOwnership
  import opened TeamChatRouting

  /** Until when each process has reserved the row, by its own last successful write. */
  type Deadlines = map<nat, nat>

  /** The end of the reservation a step has just made or renewed. */
  function Reserved(pc: Pc, m: Moved): Option<nat> {
    match pc
    case H(Upsert(now)) => if m.pc == H(Extend) then Some(now + DEFERRED_RESERVATION_MS) else None
    case H(Claim(now)) => if m.pc == H(Extend) then Some(now + DEFERRED_RESERVATION_MS) else None
    case H(_) =>
      if HandlerHolds(m.pc) && RowIs(m.g, Deferred) && m.g.row.value.lease == Some(m.g.clock + ROUTING_RESERVATION_MS)
      then m.g.row.value.lease else None
    case Q(TryClaim) => if m.pc == Q(SecondCheck) then Some(m.g.clock + QUEUE_RESERVATION_MS) else None
    case _ => None
  }

  function Moves(s: State, e: Event): Moved
    requires Enabled(s, e) && e.Step?
  {
    Act(s.g, s.procs[e.pid].host, s.procs[e.pid].pc, e.choice)
  }

  function NextDue(s: State, due: Deadlines, e: Event): Deadlines
    requires Enabled(s, e)
  {
    if !e.Step? then due
    else
      var until := Reserved(s.procs[e.pid].pc, Moves(s, e));
      if until.Some? then due[e.pid := until.value] else due
  }

  function DueAfter(s: State, due: Deadlines, es: seq<Event>): Deadlines
    requires Legal(s, es)
    decreases |es|
  {
    if es == [] then due else DueAfter(Next(s, es[0]), NextDue(s, due, es[0]), es[1..])
  }

  predicate InTime(s: State, due: Deadlines, p: nat) { p in due && s.g.clock < due[p] }

  predicate Holds(pc: Pc) { HandlerHolds(pc) || Linking(pc) }

  /** Every handler, and every call past its last check, is within its own reservation. */
  ghost predicate Timely(s: State, due: Deadlines) {
    forall p :: p in s.procs && Holds(s.procs[p].pc) ==> InTime(s, due, p)
  }

  /** Every queue call is within its own claim. */
  ghost predicate ClaimsTimely(s: State, due: Deadlines) {
    forall p :: p in s.procs && QueueHolds(s.procs[p].pc) ==> InTime(s, due, p)
  }

  /** A retry gives a queueing row back only within its own claim. */
  predicate TimelyRetry(s: State, due: Deadlines, e: Event)
    requires Enabled(s, e)
  {
    e.Step? && s.procs[e.pid].pc.Q? && s.procs[e.pid].pc.q.RetryUpdate? && s.procs[e.pid].pc.q.read == Queueing
    && !e.choice.fail && RowIs(s.g, Queueing) ==>
      s.procs[e.pid].pc.q.claimed && InTime(s, due, e.pid)
  }

  /** Two assumptions on retries: they leave claims alone, and they leave deferred leases alone. */
  datatype Care = Care(retries: bool, lasting: bool)

  /** A run in which every holder keeps within its own reservation. */
  ghost predicate TimelyRun(care: Care, s: State, due: Deadlines, es: seq<Event>)
    requires Legal(s, es)
    decreases |es|
  {
    && Timely(s, due)
    && (es != [] ==> (
        && FreshStamp(s, es[0]) && SteadyBeat(s, es[0])
        && (care.retries ==> TimelyRetry(s, due, es[0]))
        && (care.lasting ==> LastingLease(s, es[0]))
        && TimelyRun(care, Next(s, es[0]), NextDue(s, due, es[0]), es[1..])))
  }

  /** A run in which every queue call keeps within its own claim. */
  ghost predicate ClaimsRun(s: State, due: Deadlines, es: seq<Event>)
    requires Legal(s, es)
    decreases |es|
  {
    && ClaimsTimely(s, due)
    && (es != [] ==> (
        && TimelyRetry(s, due, es[0])
        && ClaimsRun(Next(s, es[0]), NextDue(s, due, es[0]), es[1..])))
  }

  // ----- claims -----

  /** The row as a call within its claim finds it: claimed until its deadline, or retired. */
  predicate ClaimShows(g: Shared, until: nat) {
    (RowIs(g, Queueing) && g.row.value.lease == Some(until)) || RowIs(g, Ignored)
  }

  predicate Claims(s: State, due: Deadlines, p: nat) {
    p in s.procs && QueueHolds(s.procs[p].pc) && InTime(s, due, p)
  }

  ghost predicate ClaimsShow(s: State, due: Deadlines) {
    forall p :: Claims(s, due, p) ==> ClaimShows(s.g, due[p])
  }

  ghost predicate OneInTime(s: State, due: Deadlines) {
    forall p, q :: Claims(s, due, p) && Claims(s, due, q) ==> p == q
  }

  /** A call within its claim sees the claim, and is the only one. */
  ghost predicate ClaimWatch(s: State, due: Deadlines) { ClaimsShow(s, due) && OneInTime(s, due) }

  lemma HolderLeavesTheRow(g: Shared, host: nat, pc: Pc, c: Choice)
    requires Fits(c) && QueueHolds(pc) && QueueHolds(Act(g, host, pc, c).pc)
    ensures Act(g, host, pc, c).g.row == g.row
  {}

  lemma ClaimEnters(g: Shared, host: nat, pc: Pc, c: Choice)
    requires Fits(c) && !QueueHolds(pc) && QueueHolds(Act(g, host, pc, c).pc)
    ensures pc == Q(TryClaim) && Act(g, host, pc, c).pc == Q(SecondCheck) && RowIs(g, Received)
    ensures RowIs(Act(g, host, pc, c).g, Queueing)
    ensures Act(g, host, pc, c).g.row.value.lease == Some(g.clock + QUEUE_RESERVATION_MS)
  {}

  lemma AbandonRetires(g: Shared, q: QueuePc, c: Choice)
    requires q.Abandon? && RowIs(g, Queueing) && g.row.value.runId.None? && RetryDelay(c.delay)
    ensures RowIs(QueueStep(g, q, c).g, Queueing) ==> QueueStep(g, q, c).g.row == g.row
    ensures RowIs(QueueStep(g, q, c).g, Queueing) || RowIs(QueueStep(g, q, c).g, Ignored)
  {}

  /** The claim of a call that does not move itself. */
  lemma ClaimStands(s: State, due: Deadlines, pid: nat, c: Choice, p: nat)
    requires Inv(s) && ClockInv(s) && ClaimWatch(s, due)
    requires Enabled(s, Step(pid, c)) && TimelyRetry(s, due, Step(pid, c))
    requires Linking(s.procs[pid].pc) ==> InTime(s, due, pid)
    requires p != pid && Claims(s, due, p)
    ensures ClaimShows(Next(s, Step(pid, c)).g, due[p])
  {
    var actor := s.procs[pid];
    assert ClaimShows(s.g, due[p]);
    if RowIs(s.g, Ignored) {
      IgnoredStays(s.g, actor.host, actor.pc, c);
    } else {
      StepTakesClaim(s.g, actor.host, actor.pc, c);
      if TakesClaim(actor.pc, c) {
        assert !Claims(s, due, pid);
        AbandonRetires(s.g, actor.pc.q, c);
      }
    }
  }

  /** A step leaves other processes and their deadlines alone. */
  lemma Elsewhere(s: State, due: Deadlines, pid: nat, c: Choice, p: nat)
    requires Enabled(s, Step(pid, c)) && p != pid
    ensures var s', due' := Next(s, Step(pid, c)), NextDue(s, due, Step(pid, c));
            && (Claims(s', due', p) <==> Claims(s, due, p))
            && (p in due ==> p in due' && due'[p] == due[p])
  {
    ClockStands(s.g, s.procs[pid].host, s.procs[pid].pc, c);
  }

  lemma ClaimWatchStep(s: State, due: Deadlines, pid: nat, c: Choice)
    requires Inv(s) && ClockInv(s) && ClaimWatch(s, due)
    requires Enabled(s, Step(pid, c)) && TimelyRetry(s, due, Step(pid, c))
    requires Linking(s.procs[pid].pc) ==> InTime(s, due, pid)
    ensures ClaimWatch(Next(s, Step(pid, c)), NextDue(s, due, Step(pid, c)))
  {
    var s', due' := Next(s, Step(pid, c)), NextDue(s, due, Step(pid, c));
    forall p | Claims(s', due', p) ensures ClaimShows(s'.g, due'[p]) {
      if p == pid {
        OwnClaim(s, due, pid, c);
      } else {
        Elsewhere(s, due, pid, c, p);
        ClaimStands(s, due, pid, c, p);
      }
    }
    OneInTimeStays(s, due, pid, c);
  }

  lemma OneInTimeStays(s: State, due: Deadlines, pid: nat, c: Choice)
    requires ClaimWatch(s, due) && Enabled(s, Step(pid, c))
    ensures OneInTime(Next(s, Step(pid, c)), NextDue(s, due, Step(pid, c)))
  {
    var s', due' := Next(s, Step(pid, c)), NextDue(s, due, Step(pid, c));
    forall p, q | Claims(s', due', p) && Claims(s', due', q) ensures p == q {
      if p != pid { Elsewhere(s, due, pid, c, p); }
      if q != pid { Elsewhere(s, due, pid, c, q); }
      if p != q && p == pid { NoSecondClaim(s, due, pid, c, q); }
      if p != q && q == pid { NoSecondClaim(s, due, pid, c, p); }
    }
  }

  /** The claim of the call that moves. */
  lemma OwnClaim(s: State, due: Deadlines, pid: nat, c: Choice)
    requires ClaimWatch(s, due) && Enabled(s, Step(pid, c))
    requires Claims(Next(s, Step(pid, c)), NextDue(s, due, Step(pid, c)), pid)
    ensures ClaimShows(Next(s, Step(pid, c)).g, NextDue(s, due, Step(pid, c))[pid])
  {
    var actor := s.procs[pid];
    ClockStands(s.g, actor.host, actor.pc, c);
    if QueueHolds(actor.pc) {
      HolderLeavesTheRow(s.g, actor.host, actor.pc, c);
      HolderReservesNothing(actor.pc, Act(s.g, actor.host, actor.pc, c));
      assert Claims(s, due, pid);
    } else {
      ClaimEnters(s.g, actor.host, actor.pc, c);
    }
  }

  /** While one call is within its claim no other claims the row. */
  lemma NoSecondClaim(s: State, due: Deadlines, pid: nat, c: Choice, p: nat)
    requires ClaimWatch(s, due) && Enabled(s, Step(pid, c)) && p != pid && Claims(s, due, p)
    ensures !Claims(Next(s, Step(pid, c)), NextDue(s, due, Step(pid, c)), pid)
  {
    var actor := s.procs[pid];
    ClockStands(s.g, actor.host, actor.pc, c);
    if QueueHolds(Act(s.g, actor.host, actor.pc, c).pc) {
      if QueueHolds(actor.pc) {
        HolderReservesNothing(actor.pc, Act(s.g, actor.host, actor.pc, c));
        assert !Claims(s, due, pid);
      } else {
        ClaimEnters(s.g, actor.host, actor.pc, c);
        assert false;
      }
    }
  }

  lemma HolderReservesNothing(pc: Pc, m: Moved)
    requires QueueHolds(pc)
    ensures Reserved(pc, m).None?
  {}

  lemma ClaimWatchNext(s: State, due: Deadlines, e: Event)
    requires Inv(s) && ClockInv(s) && ClaimWatch(s, due) && Enabled(s, e) && TimelyRetry(s, due, e)
    requires forall p :: p in s.procs && Linking(s.procs[p].pc) ==> InTime(s, due, p)
    ensures ClaimWatch(Next(s, e), NextDue(s, due, e))
  {
    match e
    case Step(pid, c) => ClaimWatchStep(s, due, pid, c);
    case _ => ClaimWatchOther(s, due, e);
  }

  /** Steps of the world bring no new holder. */
  lemma NoNewHolder(s: State, e: Event)
    requires Enabled(s, e) && !e.Step?
    ensures forall p | p in Next(s, e).procs ::
              HandlerHolds(Next(s, e).procs[p].pc) || QueueHolds(Next(s, e).procs[p].pc) ==>
              p in s.procs && Next(s, e).procs[p] == s.procs[p]
    ensures Next(s, e).g.row == s.g.row && s.g.clock <= Next(s, e).g.clock
  {}

  lemma ClaimWatchOther(s: State, due: Deadlines, e: Event)
    requires ClaimWatch(s, due) && Enabled(s, e) && !e.Step?
    ensures ClaimWatch(Next(s, e), due)
  {
    var s' := Next(s, e);
    NoNewHolder(s, e);
    assert forall p :: Claims(s', due, p) ==> Claims(s, due, p);
  }

  lemma ClaimsHoldTheRow(s: State, due: Deadlines)
    requires ClaimWatch(s, due) && ClaimsTimely(s, due)
    ensures ClaimHolds(s)
  {
    if p :| p in s.procs && QueueHolds(s.procs[p].pc) { assert Claims(s, due, p); }
  }

  lemma {:induction false} ClaimsRunIsDisciplined(s: State, due: Deadlines, es: seq<Event>)
    requires Inv(s) && ClockInv(s) && ClaimWatch(s, due) && Legal(s, es) && ClaimsRun(s, due, es)
    ensures Disciplined(KEPT, s, es)
    decreases |es|
  {
    ClaimsHoldTheRow(s, due);
    if es != [] {
      NextKeeps(s, es[0]);
      ClockNext(s, es[0]);
      ClaimWatchNext(s, due, es[0]);
      ClaimsRunIsDisciplined(Next(s, es[0]), NextDue(s, due, es[0]), es[1..]);
    }
  }

  /** If every queue call keeps within its own claim, retries included, no message is dropped. */
  lemma TimelyClaimsDropNothing(ambient: bool, es: seq<Event>)
    requires Legal(Init(ambient), es) && ClaimsRun(Init(ambient), map[], es)
    ensures var g := After(Init(ambient), es).g;
            g.row.Some? && g.row.value.reason == RoutineWake ==> g.woken && g.row.value.status == Ignored
  {
    ClaimsRunIsDisciplined(Init(ambient), map[], es);
    RoutineMarkMeansWoken(ambient, es);
  }

  // ----- handlers -----

  /** A handler's own deadline never lies beyond the stored lease. */
  ghost predicate HandlerWatch(s: State, due: Deadlines) {
    forall p :: p in s.procs && HandlerHolds(s.procs[p].pc) ==>
      && p in due && due[p] <= s.g.clock + ROUTING_RESERVATION_MS
      && RowIs(s.g, Deferred) && s.g.row.value.lease.Some? && due[p] <= s.g.row.value.lease.value
  }

  lemma LeasesHold(s: State, due: Deadlines)
    requires ClaimWatch(s, due) && HandlerWatch(s, due) && Timely(s, due)
    ensures LeaseHolds(s)
  {
    forall p | p in s.procs && Linking(s.procs[p].pc) ensures !Lapsed(s.g) { assert Claims(s, due, p); }
  }

  lemma HandlerWatchStep(s: State, due: Deadlines, pid: nat, c: Choice)
    requires Enabled(s, Step(pid, c)) && LastingLease(s, Step(pid, c))
    requires Inv(s) && ClockInv(s) && OwnerInv(s) && OwnerInv(Next(s, Step(pid, c)))
    requires HandlerWatch(s, due) && Timely(s, due)
    ensures HandlerWatch(Next(s, Step(pid, c)), NextDue(s, due, Step(pid, c)))
  {
    var actor := s.procs[pid];
    var m := Act(s.g, actor.host, actor.pc, c);
    var s', due' := Next(s, Step(pid, c)), NextDue(s, due, Step(pid, c));
    ClockStands(s.g, actor.host, actor.pc, c);
    LeasesStay(s.g, actor.host, actor.pc, c);
    forall p | p in s'.procs && HandlerHolds(s'.procs[p].pc)
      ensures p in due' && due'[p] <= s'.g.clock + ROUTING_RESERVATION_MS
      ensures RowIs(s'.g, Deferred) && s'.g.row.value.lease.Some? && due'[p] <= s'.g.row.value.lease.value
    {
      if HandlerHolds(s.procs[p].pc) {
        assert InTime(s, due, p);
        StepShortens(s.g, actor.host, actor.pc, c);
      } else {
        HandlerEnters(s.g, actor.host, actor.pc, c);
        HandlerReserves(s.g, actor.host, actor.pc, c);
      }
    }
  }

  lemma HandlerReserves(g: Shared, host: nat, pc: Pc, c: Choice)
    requires PastInv(g, pc) && Fits(c) && pc.H? && (pc.h.Upsert? || pc.h.Claim?)
    requires HandlerHolds(Act(g, host, pc, c).pc)
    ensures var m := Act(g, host, pc, c);
            && Reserved(pc, m).Some? && RowIs(m.g, Deferred) && m.g.row.value.lease == Reserved(pc, m)
            && Reserved(pc, m).value <= m.g.clock + ROUTING_RESERVATION_MS
  {}

  lemma HandlerWatchOther(s: State, due: Deadlines, e: Event)
    requires HandlerWatch(s, due) && Enabled(s, e) && !e.Step?
    ensures HandlerWatch(Next(s, e), due)
  {
    NoNewHolder(s, e);
  }

  /** All that a timely run keeps. */
  ghost predicate WatchInv(s: State, due: Deadlines) {
    Inv(s) && ClockInv(s) && OwnerInv(s) && ClaimWatch(s, due) && HandlerWatch(s, due)
  }

  const CAREFUL := Care(true, true)

  lemma WatchNext(s: State, due: Deadlines, e: Event)
    requires WatchInv(s, due) && Timely(s, due) && Enabled(s, e)
    requires FreshStamp(s, e) && SteadyBeat(s, e) && TimelyRetry(s, due, e) && LastingLease(s, e)
    ensures WatchInv(Next(s, e), NextDue(s, due, e))
  {
    LeasesHold(s, due);
    NextKeeps(s, e);
    ClockNext(s, e);
    OwnerNext(s, e);
    ClaimWatchNext(s, due, e);
    match e
    case Step(pid, c) => HandlerWatchStep(s, due, pid, c);
    case _ => HandlerWatchOther(s, due, e);
  }

  lemma {:induction false} WatchRun(s: State, due: Deadlines, es: seq<Event>)
    requires WatchInv(s, due) && Legal(s, es) && TimelyRun(CAREFUL, s, due, es)
    ensures WatchInv(After(s, es), DueAfter(s, due, es)) && Timely(After(s, es), DueAfter(s, due, es))
    ensures Disciplined(TIMED, s, es)
    decreases |es|
  {
    LeasesHold(s, due);
    if es != [] {
      WatchNext(s, due, es[0]);
      WatchRun(Next(s, es[0]), NextDue(s, due, es[0]), es[1..]);
    }
  }

  /** When every holder keeps within its own reservation, with unique stamps, steady heartbeats and
      retries that leave other reservations alone: a handler or a linking call is the only one of
      either kind, and no event gets both a wake and an agent run. */
  lemma SoleHolder(ambient: bool, es: seq<Event>)
    requires Legal(Init(ambient), es) && TimelyRun(CAREFUL, Init(ambient), map[], es)
    ensures var t := After(Init(ambient), es);
            && (forall p, q :: p in t.procs && q in t.procs && Holds(t.procs[p].pc) && Holds(t.procs[q].pc) ==> p == q)
            && (forall p :: p in t.procs && HandlerHolds(t.procs[p].pc) ==> RowIs(t.g, Deferred))
            && !(t.g.woken && RowLinked(t.g))
  {
    WatchRun(Init(ambient), map[], es);
    ExclusiveOwnership(ambient, es);
  }

  // ----- runs that are over before any reservation can end -----

  ghost predicate EarlyInv(s: State, due: Deadlines) {
    forall p :: p in s.procs && (HandlerHolds(s.procs[p].pc) || QueueHolds(s.procs[p].pc)) ==>
      p in due && DEFERRED_RESERVATION_MS <= due[p]
  }

  lemma EarlyNext(s: State, due: Deadlines, e: Event)
    requires Enabled(s, e) && EarlyInv(s, due) && ClockInv(s)
    ensures EarlyInv(Next(s, e), NextDue(s, due, e))
  {
    match e
    case Step(pid, c) => EarlyStep(s.procs[pid].pc, s.g, s.procs[pid].host, c);
    case _ => NoNewHolder(s, e);
  }

  /** Every reservation is at least as long as the shortest one, and entering makes one. */
  lemma EarlyStep(pc: Pc, g: Shared, host: nat, c: Choice)
    requires Fits(c) && PastInv(g, pc)
    ensures var m := Act(g, host, pc, c);
            && (Reserved(pc, m).Some? ==> Reserved(pc, m).value >= DEFERRED_RESERVATION_MS)
            && (HandlerHolds(m.pc) && !HandlerHolds(pc) ==> Reserved(pc, m).Some?)
            && (QueueHolds(m.pc) && !QueueHolds(pc) ==> Reserved(pc, m).Some?)
  {
    var m := Act(g, host, pc, c);
    if HandlerHolds(m.pc) && !HandlerHolds(pc) {
      HandlerEnters(g, host, pc, c);
      if !Released(pc) { HandlerReserves(g, host, pc, c); }
    }
    if QueueHolds(m.pc) && !QueueHolds(pc) { ClaimEnters(g, host, pc, c); }
  }

  /** In a run shorter than the shortest reservation everybody is in time. */
  lemma {:induction false} EarlyRunsAreTimely(d: Discipline, s: State, due: Deadlines, es: seq<Event>)
    requires Inv(s) && ClockInv(s) && EarlyInv(s, due) && Legal(s, es) && Disciplined(d, s, es)
    requires d.stamps && d.beats && After(s, es).g.clock < DEFERRED_RESERVATION_MS
    ensures TimelyRun(Care(d.retries, d.lasting), s, due, es)
    decreases |es|
  {
    RunKeeps(s, es);
    if es != [] {
      NextKeeps(s, es[0]);
      ClockNext(s, es[0]);
      EarlyNext(s, due, es[0]);
      EarlyRunsAreTimely(d, Next(s, es[0]), NextDue(s, due, es[0]), es[1..]);
    }
  }
}
