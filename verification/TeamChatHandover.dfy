/** Where a webhook handler leaves its row: retired if its wake committed, and otherwise handed to
    ambient evaluation or to the queue, by the kind of the message. */
module TeamChatHandover {
  import opened Wrappers
  import opened TeamChatRows
  import opened TeamChatProtocol
  import opened TeamChatSafety
  import opened TeamChatTiming
  import opened TeamChatOwnership
  import opened TeamChatReplies

  predicate WakeMoves(pc: Pc, c: Choice) { pc.H? && pc.h.Waiting? && c.who == ByWake }

  /** Nothing crashes, the handler is alone with the row, the nonce and the in-flight marks, and none of its
      calls throws but its wake's. */
  ghost predicate HandlesAlone(s: State, es: seq<Event>, p: nat)
    requires Legal(s, es)
    decreases |es|
  {
    es != [] ==> (
      && !es[0].Crash?
      && (es[0].Step? && es[0].pid == p && es[0].choice.fail ==> WakeMoves(s.procs[p].pc, es[0].choice))
      && (es[0].Step? && es[0].pid != p ==>
            && Next(s, es[0]).g.row == s.g.row && Next(s, es[0]).g.woken == s.g.woken
            && Next(s, es[0]).g.inFlight == s.g.inFlight)
      && HandlesAlone(Next(s, es[0]), es[1..], p))
  }

  /** A message nobody has claimed: a direct one waits for the queue, an ambient one for evaluation. */
  predicate HandedOver(g: Shared) {
    && g.row.Some? && g.row.value.status == (if g.ambient then Observed else Received)
    && g.row.value.reason == NoReason && g.row.value.lease == None && g.row.value.runId == None
  }

  predicate Retired(g: Shared) {
    RowIs(g, Ignored) && g.row.value.reason == RoutineWake && g.row.value.lease == None && g.row.value.runId == None
  }

  predicate Settling(g: Shared) { if g.woken then Retired(g) else HandedOver(g) }

  /** How far a handler has come with a row that is its own. */
  predicate Handles(g: Shared, host: nat, pc: Pc) {
    match pc
    case H(Extend) => RowIs(g, Deferred) && !g.woken
    case H(Waiting(wake, beat)) =>
      RowIs(g, Deferred) && beat == Beating && host in g.inFlight && (g.woken <==> wake == Settled(Woken))
    case H(Resolving(woken, _)) => RowIs(g, Deferred) && host in g.inFlight && g.woken == woken
    case H(Finishing(_)) => Settling(g) && host in g.inFlight
    case H(Trailing) => Settling(g) && host !in g.inFlight
    case Done => Settling(g) && host !in g.inFlight
    case _ => false
  }

  lemma WaitingHandles(g: Shared, host: nat, wake: Wake, c: Choice)
    requires SharedInv(g) && Handles(g, host, H(Waiting(wake, Beating))) && (c.fail ==> c.who == ByWake)
    ensures var m := WaitingStep(g, wake, Beating, c); Handles(m.g, host, m.pc)
  {}

  lemma StepHandles(g: Shared, host: nat, pc: Pc, c: Choice)
    requires SharedInv(g) && Fits(c) && Handles(g, host, pc) && (c.fail ==> WakeMoves(pc, c))
    ensures var m := Act(g, host, pc, c); Handles(m.g, host, m.pc)
  {
    if pc.H? && pc.h.Waiting? { WaitingHandles(g, host, pc.h.wake, c); }
  }

  lemma {:induction false} HandlesRun(s: State, es: seq<Event>, p: nat)
    requires Inv(s) && Legal(s, es) && HandlesAlone(s, es, p)
    requires p in s.procs && Handles(s.g, s.procs[p].host, s.procs[p].pc)
    ensures p in After(s, es).procs && After(s, es).procs[p].host == s.procs[p].host
    ensures Handles(After(s, es).g, s.procs[p].host, After(s, es).procs[p].pc)
    decreases |es|
  {
    if es != [] {
      var e := es[0];
      NextKeeps(s, e);
      if e.Step? {
        var actor := s.procs[e.pid];
        AmbientStands(s.g, actor.host, actor.pc, e.choice);
        if e.pid == p { StepHandles(s.g, actor.host, actor.pc, e.choice); }
      }
      HandlesRun(Next(s, e), es[1..], p);
    }
  }

  /** A handler that has won its deferred row, alone with it: once it is over, the row is retired if
      its wake committed, and otherwise free for ambient evaluation or the queue. */
  lemma HandlerHandsOver(s: State, es: seq<Event>, p: nat)
    requires Reachable(s) && p in s.procs && s.procs[p].pc == H(Extend) && RowIs(s.g, Deferred) && !s.g.woken
    requires Legal(s, es) && HandlesAlone(s, es, p)
    ensures var t := After(s, es);
            && p in t.procs
            && (t.procs[p].pc == Done ==>
                  && t.procs[p].host !in t.g.inFlight
                  && t.g.row.Some? && t.g.row.value.lease == None && t.g.row.value.runId == None
                  && if t.g.woken then t.g.row.value.status == Ignored && t.g.row.value.reason == RoutineWake
                     else t.g.row.value.reason == NoReason
                          && t.g.row.value.status == if t.g.ambient then Observed else Received)
  {
    ReachableInv(s);
    HandlesRun(s, es, p);
  }

  // ----- every step -----

  /** In every reachable state: only an ambient row is ever observed, and an ambient row becomes a
      request only by the promotion of an observed row, or by a claim that is given back. */
  ghost predicate KindInv(g: Shared) { RowIs(g, Observed) ==> g.ambient }

  /** A step that turns a row into a request. */
  predicate Requests(g: Shared, g': Shared) { RowIs(g', Received) && !RowIs(g, Received) }

  /** The claim on the row expires, or a retry gives it back. */
  predicate GivesBack(g: Shared, pc: Pc, c: Choice) {
    && !c.fail && RowIs(g, Queueing)
    && (|| (pc.V? && pc.v.ExpireQueue? && Expired(g.row.value, pc.v.now))
        || (pc.Q? && pc.q.RetryUpdate? && pc.q.read == Queueing))
  }

  lemma HandlerRequestsNothing(g: Shared, host: nat, h: HandlerPc, c: Choice)
    requires SharedInv(g) && KindInv(g)
    ensures var g' := HandlerStep(g, host, h, c).g; KindInv(g') && (g.ambient ==> !Requests(g, g'))
  {
    match h
    case Waiting(wake, beat) => WaitingCases(g, wake, beat, c);
    case Resolving(_, _) => ReleaseCases(g, host, h, c);
    case Releasing(_) => ReleaseCases(g, host, h, c);
    case Detached(_, _) => ReleaseCases(g, host, h, c);
    case Finishing(_) => ReleaseCases(g, host, h, c);
    case Trailing => ReleaseCases(g, host, h, c);
    case _ =>
  }

  lemma StepRequests(g: Shared, host: nat, pc: Pc, c: Choice)
    requires SharedInv(g) && PcInv(g, pc) && Fits(c) && KindInv(g)
    ensures var g' := Act(g, host, pc, c).g;
            && KindInv(g') && g'.ambient == g.ambient
            && (g.ambient ==>
                  (Requests(g, g') <==>
                     || (pc.V? && pc.v.AmbientPromote? && !c.fail && RowIs(g, Observed))
                     || GivesBack(g, pc, c)))
  {
    AmbientStands(g, host, pc, c);
    match pc
    case H(h) => HandlerRequestsNothing(g, host, h, c);
    case V(v) => RecoveryRequests(g, host, v, c);
    case _ =>
  }

  lemma RecoveryRequests(g: Shared, host: nat, v: RecoverPc, c: Choice)
    requires SharedInv(g) && PcInv(g, V(v)) && KindInv(g)
    ensures var g' := RecoverStep(g, host, v, c).g;
            && KindInv(g')
            && (g.ambient ==>
                  (Requests(g, g') <==>
                     || (v.AmbientPromote? && !c.fail && RowIs(g, Observed))
                     || GivesBack(g, V(v), c)))
  {}

  lemma {:induction false} KindRun(s: State, es: seq<Event>)
    requires Inv(s) && KindInv(s.g) && Legal(s, es)
    ensures KindInv(After(s, es).g)
    decreases |es|
  {
    if es != [] {
      NextKeeps(s, es[0]);
      if es[0].Step? {
        var p := s.procs[es[0].pid];
        assert PcInv(s.g, p.pc);
        StepRequests(s.g, p.host, p.pc, es[0].choice);
      }
      KindRun(Next(s, es[0]), es[1..]);
    }
  }

  /** What nobody asked is not answered: in every reachable state only an ambient row is observed, and
      a step makes an ambient row a request if and only if it promotes the observed row or gives back
      a claim made before. */
  lemma WhoMakesARequest(s: State, e: Event)
    requires Reachable(s) && Enabled(s, e)
    ensures RowIs(s.g, Observed) ==> s.g.ambient
    ensures s.g.ambient ==>
              (Requests(s.g, Next(s, e).g) <==>
                 e.Step? && var pc := s.procs[e.pid].pc;
                 || (pc.V? && pc.v.AmbientPromote? && !e.choice.fail && RowIs(s.g, Observed))
                 || GivesBack(s.g, pc, e.choice))
  {
    var ambient, es :| Legal(Init(ambient), es) && After(Init(ambient), es) == s;
    ReachableInv(s);
    KindRun(Init(ambient), es);
    if e.Step? {
      var p := s.procs[e.pid];
      assert PcInv(s.g, p.pc);
      StepRequests(s.g, p.host, p.pc, e.choice);
    }
  }

  /** What ambient evaluation decides takes effect: an observed row the judge engages with becomes a
      request with the judge's reason, one it does not is ignored, and a row that is observed no longer
      is left alone. */
  lemma AmbientDecides(s: State, pid: nat, act: Choice, write: Choice)
    requires Reachable(s) && Enabled(s, Step(pid, act)) && s.procs[pid].pc == V(AmbientRead) && !act.fail
    requires RowIs(s.g, Observed)
    requires Enabled(Next(s, Step(pid, act)), Step(pid, write)) && !write.fail
    ensures var t := Next(Next(s, Step(pid, act)), Step(pid, write));
            && t.procs[pid].pc == Done
            && t.g.row == Some(if act.flag then s.g.row.value.(status := Received, reason := act.reason)
                               else s.g.row.value.(status := Ignored))
  {}

  /** A reconciler that finds no nonce frees a routing-marked row unless its own host has a wake of it in
      flight. */
  lemma ReconcilersSpareTheirOwnWakes(s: State, pid: nat, c: Choice)
    requires Enabled(s, Step(pid, c)) && s.procs[pid].pc.V? && s.procs[pid].pc.v.Unwoken? && !c.fail && s.g.row.Some?
    ensures var now, reason := s.procs[pid].pc.v.now, s.procs[pid].pc.v.reason;
            Next(s, Step(pid, c)).procs[pid].pc
            == if RoutingOwned(reason) && s.procs[pid].host in s.g.inFlight then Done
               else V(if RoutingOwned(reason) then ClearRouting(now) else Promote(now))
  {}

  /** A renewal notices the loss of its row: the heartbeat goes on exactly while the row is deferred, and
      every renewal marks it for routing for another thirty minutes. */
  lemma HeartbeatNoticesLoss(s: State, pid: nat, c: Choice)
    requires Enabled(s, Step(pid, c)) && s.procs[pid].pc.H? && s.procs[pid].pc.h.Waiting? && s.g.row.Some?
    requires s.procs[pid].pc.h.beat == Beating && c.who == ByBeat && !c.fail
    ensures var wake, t := s.procs[pid].pc.h.wake, Next(s, Step(pid, c));
            && t.procs[pid].pc == H(Waiting(wake, if RowIs(s.g, Deferred) then Beating
                                                  else if wake.Settled? then NotHolding else LostPending))
            && t.g.row == (if RowIs(s.g, Deferred)
                           then Some(s.g.row.value.(reason := Routing, lease := Some(s.g.clock + 1_800_000)))
                           else s.g.row)
  {}

  /** At its start a bridge frees the row of a wake that was interrupted, once its lease has run out, for
      recovery to hand over. */
  lemma StartupFreesInterruptedWakes(s: State, pid: nat, c: Choice)
    requires Enabled(s, Step(pid, c)) && s.procs[pid].pc == V(Startup(s.g.clock)) && !c.fail
    requires RowIs(s.g, Deferred) && Expired(s.g.row.value, s.g.clock) && RoutingOwned(s.g.row.value.reason)
    ensures Next(s, Step(pid, c)).g.row == Some(s.g.row.value.(reason := NoReason, lease := Some(s.g.clock)))
  {}
}
