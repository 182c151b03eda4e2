/** What becomes of queue calls once a routine's wake has committed. */
module TeamChatWoken {
  import opened Wrappers
  import opened TeamChatRows
  import opened TeamChatProtocol
  import opened TeamChatSafety
  import opened TeamChatTiming
  import opened TeamChatConvergence

  /** The nonce is committed, no agent run exists, and no call is past its look just before the send. */
  ghost predicate NoRunComing(s: State) {
    && s.g.woken && s.g.agentRun == None
    && forall p :: p in s.procs ==> s.procs[p].pc != Q(SendAgent)
  }

  lemma NoRunStep(g: Shared, host: nat, pc: Pc, c: Choice)
    requires SharedInv(g) && PcInv(g, pc) && Fits(c) && g.woken && g.agentRun == None && pc != Q(SendAgent)
    ensures var m := Act(g, host, pc, c); m.g.woken && m.g.agentRun == None && m.pc != Q(SendAgent)
  {
    match pc
    case H(h) =>
      match h {
        case Waiting(wake, beat) => WaitingCases(g, wake, beat, c);
        case _ =>
      }
    case _ =>
  }

  /** Then no run is ever made for the event, however many queue calls follow. */
  lemma {:induction false} NoRunRun(s: State, es: seq<Event>)
    requires Inv(s) && NoRunComing(s) && Legal(s, es)
    ensures NoRunComing(After(s, es))
    decreases |es|
  {
    if es != [] {
      var e := es[0];
      NextKeeps(s, e);
      if e.Step? {
        var actor := s.procs[e.pid];
        assert PcInv(s.g, actor.pc);
        NoRunStep(s.g, actor.host, actor.pc, e.choice);
      }
      NoRunRun(Next(s, e), es[1..]);
    }
  }

  lemma WokenEventsGetNoRun(s: State, es: seq<Event>)
    requires Reachable(s) && NoRunComing(s) && Legal(s, es)
    ensures After(s, es).g.agentRun == None
  {
    ReachableInv(s);
    NoRunRun(s, es);
  }

  /** Nobody else writes the row. */
  ghost predicate LeftAlone(s: State, es: seq<Event>, p: nat)
    requires Legal(s, es)
    decreases |es|
  {
    es != [] ==> (
      && GoesOn(s, es[0], p)
      && (es[0].Step? && es[0].pid != p ==> Next(s, es[0]).g.row == s.g.row)
      && LeftAlone(Next(s, es[0]), es[1..], p))
  }

  /** Where a call may be when the wake has committed: on a received row it has not claimed, or on the row
      it has claimed and not linked. */
  predicate Retires(g: Shared, pc: Pc, now: nat) {
    && g.woken
    && match pc {
         case Q(QueueRead(n)) =>
           n == now && RowIs(g, Received) && !OwnershipMark(g.row.value.reason) && Due(g.row.value, n)
         case Q(FirstCheck(reason)) => RowIs(g, Received) && !OwnershipMark(reason)
         case Q(AbandonEarly) => RowIs(g, Received)
         case Q(SecondCheck) => RowIs(g, Queueing)
         case Q(LatestRead) => RowIs(g, Queueing)
         case Q(ThirdCheck) => RowIs(g, Queueing)
         case Q(SendAgent) => RowIs(g, Queueing)
         case Q(FourthCheck(_)) => RowIs(g, Queueing)
         case Q(CancelRun(_)) => RowIs(g, Queueing)
         case Q(Abandon(_)) => RowIs(g, Queueing)
         case Done => RowIs(g, Ignored) && g.row.value.reason == RoutineWake && g.row.value.lease == None
         case _ => false
       }
  }

  /** The steps a call needs to retire the row. */
  function RetireLeft(pc: Pc): nat {
    match pc
    case Q(SendAgent) => 4
    case Q(FourthCheck(_)) => 3
    case Q(CancelRun(_)) => 2
    case Q(LatestRead) => 3
    case Q(SecondCheck) => 2
    case Q(ThirdCheck) => 2
    case Q(Abandon(_)) => 1
    case Q(QueueRead(_)) => 3
    case Q(FirstCheck(_)) => 2
    case Q(AbandonEarly) => 1
    case _ => 0
  }

  lemma RetiringStep(g: Shared, host: nat, pc: Pc, c: Choice, now: nat)
    requires SharedInv(g) && PcInv(g, pc) && Fits(c) && !c.fail && Retires(g, pc, now)
    ensures var m := Act(g, host, pc, c); Retires(m.g, m.pc, now) && (pc != Done ==> RetireLeft(m.pc) < RetireLeft(pc))
  {}

  lemma {:induction false} RetiringRun(s: State, es: seq<Event>, p: nat, now: nat)
    requires Inv(s) && Legal(s, es) && LeftAlone(s, es, p) && p in s.procs && Retires(s.g, s.procs[p].pc, now)
    ensures p in After(s, es).procs && Retires(After(s, es).g, After(s, es).procs[p].pc, now)
    ensures OwnSteps(es, p) >= RetireLeft(s.procs[p].pc) ==> After(s, es).procs[p].pc == Done
    decreases |es|
  {
    if es != [] {
      var e := es[0];
      NextKeeps(s, e);
      if e.Step? && e.pid == p {
        assert PcInv(s.g, s.procs[p].pc);
        RetiringStep(s.g, s.procs[p].host, s.procs[p].pc, e.choice, now);
      }
      RetiringRun(Next(s, e), es[1..], p, now);
    }
  }

  /** Wherever a queue call is when the wake has committed, short of its link: it retires the row as taken
      by the routine, in as many steps as its next look at the nonce leaves it; three for a call that
      starts, two for one that has just claimed the row. */
  lemma QueueCallRetires(s: State, es: seq<Event>, p: nat, now: nat)
    requires Reachable(s) && p in s.procs && Retires(s.g, s.procs[p].pc, now)
    requires Legal(s, es) && LeftAlone(s, es, p)
    ensures var t := After(s, es);
            && p in t.procs && (OwnSteps(es, p) >= RetireLeft(s.procs[p].pc) ==> t.procs[p].pc == Done)
            && (t.procs[p].pc == Done ==>
                  RowIs(t.g, Ignored) && t.g.row.value.reason == RoutineWake && t.g.row.value.lease == None)
  {
    ReachableInv(s);
    RetiringRun(s, es, p, now);
  }
}
