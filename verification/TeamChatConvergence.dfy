/** Recovery gets where it should: after a crash an event converges on the one run it already has,
    and a lost delivery is finished without a second send. */
module TeamChatConvergence {
  import opened Wrappers
  import opened TeamChatRows
  import opened TeamChatProtocol
  import opened TeamChatSafety
  import opened TeamChatTiming
  import opened TeamChatOwnership
  import opened TeamChatDelivery
  import opened TeamChatSchedules

  const ANY := Discipline(false, false, false, false, false, false)

  /** From any reachable state in which a queue claim has expired (its caller crashed or hung
      anywhere between claim and link) there is a way on: one expiry and one queue call link the row,
      to the run already stored under the agent nonce if there is one. */
  lemma ExpiredClaimIsRequeued(s: State, p: nat, q: nat, newRun: nat) returns (es: seq<Event>)
    requires Reachable(s) && RowIs(s.g, Queueing) && Expired(s.g.row.value, s.g.clock) && !s.g.woken
    requires p !in s.procs && q !in s.procs && p != q
    ensures Legal(s, es)
    ensures var g := After(s, es).g;
            && RowIs(g, Running)
            && g.row.value.runId == g.agentRun == Some(if s.g.agentRun.Some? then s.g.agentRun.value else newRun)
            && g.log == s.g.log
  {
    ReachableInv(s);
    var t;
    es, t := Start(ANY, s, [], s, p, 0, V(ExpireQueue(s.g.clock)));
    var freed := Apply(s.g, ExpireQueueing(s.g.row.value, s.g.clock));
    es := DoRecover(ANY, s, es, s.procs, s.g, p, 0, ExpireQueue(s.g.clock), Moved(freed, Done));
    es := QueueLinks(ANY, s, es, State(freed, s.procs[p := Proc(0, Done)]), q, 0, newRun);
  }

  /** From any reachable state in which a delivery reservation has expired without a handle there is
      a way on: one reconciler pass ends it, without calling `send` again. */
  lemma ExpiredDeliveryIsFinalized(s: State, p: nat) returns (es: seq<Event>)
    requires Reachable(s) && RowIs(s.g, Delivering) && s.g.row.value.handle.None?
    requires Due(s.g.row.value, s.g.clock) && p !in s.procs
    ensures Legal(s, es)
    ensures var g := After(s, es).g;
            && RowIs(g, Delivered) && g.log == s.g.log
            && g.row.value.handle == Some(if s.g.run != Completed && s.g.ambient then SilentFailure else Unconfirmed)
  {
    ReachableInv(s);
    var t;
    var g := s.g;
    es, t := Start(ANY, s, [], s, p, 0, D(DeliverRead(g.clock)));
    if g.run == Completed {
      es := DoDeliver(ANY, s, es, s.procs, g, p, 0, DeliverRead(g.clock), Moved(g, D(Content)));
      es := DoDeliver(ANY, s, es, s.procs, g, p, 0, Content, Moved(g, D(Reserve(g.clock))));
    } else if g.ambient {
      es := DoDeliver(ANY, s, es, s.procs, g, p, 0, DeliverRead(g.clock), Moved(g, D(Mark(SilentFailure))));
      es := DoDeliver(ANY, s, es, s.procs, g, p, 0, Mark(SilentFailure),
                      Moved(g.(row := Some(MarkDelivered(g.row.value, SilentFailure))), Done));
      return;
    } else {
      es := DoDeliver(ANY, s, es, s.procs, g, p, 0, DeliverRead(g.clock), Moved(g, D(Reserve(g.clock))));
    }
    es := DoDeliver(ANY, s, es, s.procs, g, p, 0, Reserve(g.clock), Moved(g, D(CheckPosted(g.clock))));
    es := DoDeliver(ANY, s, es, s.procs, g, p, 0, CheckPosted(g.clock), Moved(g, D(Finalize(g.clock))));
    es := DoDeliver(ANY, s, es, s.procs, g, p, 0, Finalize(g.clock),
                    Moved(Apply(g, FinalizeUnconfirmed(g.row.value, g.clock)), Done));
  }

  // ----- under any schedule -----

  /** The process goes on: its host does not crash and no call it awaits throws. */
  ghost predicate GoesOn(s: State, e: Event, p: nat)
    requires Enabled(s, e)
  {
    && (e.Crash? ==> p !in s.procs || s.procs[p].host != e.host)
    && (e.Step? && e.pid == p ==> !e.choice.fail)
  }

  /** How often a process has moved. */
  function OwnSteps(es: seq<Event>, p: nat): nat {
    if es == [] then 0 else (if es[0].Step? && es[0].pid == p then 1 else 0) + OwnSteps(es[1..], p)
  }

  /** Another process postpones the delivery, or records the handle of a send that was under way. */
  predicate Crosses(pc: Pc, c: Choice) {
    !c.fail && ((pc.D? && pc.d.Record?) || (pc.Q? && pc.q.RetryUpdate? && pc.q.read == Delivering))
  }

  ghost predicate Uncrossed(s: State, es: seq<Event>, p: nat)
    requires Legal(s, es)
    decreases |es|
  {
    es != [] ==> (
      && GoesOn(s, es[0], p)
      && (es[0].Step? && es[0].pid != p ==> !Crosses(s.procs[es[0].pid].pc, es[0].choice))
      && Uncrossed(Next(s, es[0]), es[1..], p))
  }

  /** A reserved delivery nobody has a handle for, due at `now`. */
  predicate Stranded(g: Shared, now: nat) {
    RowIs(g, Delivering) && g.row.value.handle.None? && Due(g.row.value, now) && now <= g.clock
  }

  /** A delivery pass on its way to finish a stranded row. */
  predicate OnItsWay(pc: Pc, now: nat) {
    && pc.D?
    && match pc.d {
         case DeliverRead(n) => n == now
         case Content => true
         case Reserve(n) => now <= n
         case CheckPosted(n) => now <= n
         case Finalize(n) => now <= n
         case Mark(handle) => handle == Silent || handle == SilentFailure
         case _ => false
       }
  }

  /** Steps left until the row is delivered. */
  function PassLeft(pc: Pc): nat {
    match pc
    case D(DeliverRead(_)) => 5
    case D(Content) => 4
    case D(Reserve(_)) => 3
    case D(CheckPosted(_)) => 2
    case _ => 1
  }

  lemma StrandedStays(g: Shared, host: nat, pc: Pc, c: Choice, now: nat)
    requires SharedInv(g) && PcInv(g, pc) && Fits(c) && Stranded(g, now) && !Crosses(pc, c)
    ensures var g' := Act(g, host, pc, c).g; Stranded(g', now) || RowIs(g', Delivered)
  {
    ClockStands(g, host, pc, c);
    match pc
    case H(h) => HandlerLeavesPosted(g, host, h, c);
    case _ =>
  }

  lemma HandlerLeavesPosted(g: Shared, host: nat, h: HandlerPc, c: Choice)
    requires RowIs(g, Delivering)
    ensures HandlerStep(g, host, h, c).g.row == g.row
  {
    match h
    case Waiting(wake, beat) => WaitingCases(g, wake, beat, c);
    case Resolving(_, _) => ReleaseCases(g, host, h, c);
    case Releasing(_) => ReleaseCases(g, host, h, c);
    case Detached(_, _) => ReleaseCases(g, host, h, c);
    case Finishing(_) => ReleaseCases(g, host, h, c);
    case Trailing => ReleaseCases(g, host, h, c);
    case _ =>
  }

  lemma PassMoves(g: Shared, host: nat, pc: Pc, c: Choice, now: nat)
    requires SharedInv(g) && PcInv(g, pc) && Fits(c) && !c.fail && Stranded(g, now) && OnItsWay(pc, now)
    ensures var m := Act(g, host, pc, c);
            RowIs(m.g, Delivered) || (Stranded(m.g, now) && OnItsWay(m.pc, now) && PassLeft(m.pc) < PassLeft(pc))
  {}

  ghost predicate Passing(s: State, p: nat, now: nat) {
    p in s.procs && (RowIs(s.g, Delivered) || (Stranded(s.g, now) && OnItsWay(s.procs[p].pc, now)))
  }

  lemma PassingStays(s: State, e: Event, p: nat, now: nat)
    requires Inv(s) && Enabled(s, e) && GoesOn(s, e, p) && Passing(s, p, now)
    requires e.Step? && e.pid != p ==> !Crosses(s.procs[e.pid].pc, e.choice)
    ensures Passing(Next(s, e), p, now)
    ensures !RowIs(Next(s, e).g, Delivered) ==>
              PassLeft(Next(s, e).procs[p].pc) + (if e.Step? && e.pid == p then 1 else 0) <= PassLeft(s.procs[p].pc)
  {
    NextKeeps(s, e);
    if e.Step? && !RowIs(s.g, Delivered) {
      var actor := s.procs[e.pid];
      assert PcInv(s.g, actor.pc);
      if e.pid == p { PassMoves(s.g, actor.host, actor.pc, e.choice, now); }
      else { StrandedStays(s.g, actor.host, actor.pc, e.choice, now); }
    }
  }

  lemma {:induction false} PassingRun(s: State, es: seq<Event>, p: nat, now: nat)
    requires Inv(s) && Legal(s, es) && Uncrossed(s, es, p) && Passing(s, p, now)
    ensures Passing(After(s, es), p, now)
    ensures RowIs(s.g, Delivered) || OwnSteps(es, p) >= PassLeft(s.procs[p].pc) ==> RowIs(After(s, es).g, Delivered)
    decreases |es|
  {
    if es != [] {
      NextKeeps(s, es[0]);
      PassingStays(s, es[0], p, now);
      PassingRun(Next(s, es[0]), es[1..], p, now);
    }
  }

  /** Under any schedule, whatever the others do short of postponing the delivery or recording a late
      handle: a delivery pass that found the row stranded has it delivered after five of its steps. */
  lemma DeliveryPassFinishes(s: State, es: seq<Event>, p: nat, now: nat)
    requires Reachable(s) && p in s.procs && s.procs[p].pc == D(DeliverRead(now)) && Stranded(s.g, now)
    requires Legal(s, es) && Uncrossed(s, es, p)
    ensures p in After(s, es).procs
    ensures OwnSteps(es, p) >= 5 || After(s, es).procs[p].pc == Done ==> RowIs(After(s, es).g, Delivered)
  {
    ReachableInv(s);
    PassingRun(s, es, p, now);
  }

  /** Until the row is linked only the call itself writes it, and no wake commits. */
  ghost predicate Undisturbed(s: State, es: seq<Event>, p: nat)
    requires Legal(s, es)
    decreases |es|
  {
    es != [] ==> (
      && GoesOn(s, es[0], p)
      && (RowLinked(s.g) || !(es[0].Step? && es[0].pid != p)
          || (Next(s, es[0]).g.row == s.g.row && Next(s, es[0]).g.woken == s.g.woken))
      && Undisturbed(Next(s, es[0]), es[1..], p))
  }

  /** How far a queue call has come with a row that is its own. */
  predicate OnItsWayToLink(g: Shared, pc: Pc, now: nat) {
    && pc.Q? && !g.woken && now <= g.clock
    && match pc.q {
         case QueueRead(n) =>
           n == now && RowIs(g, Received) && !OwnershipMark(g.row.value.reason) && Due(g.row.value, n)
         case FirstCheck(reason) => RowIs(g, Received) && !OwnershipMark(g.row.value.reason) && !OwnershipMark(reason)
         case TryClaim => RowIs(g, Received) && !OwnershipMark(g.row.value.reason)
         case SecondCheck => RowIs(g, Queueing)
         case LatestRead => RowIs(g, Queueing)
         case ThirdCheck => RowIs(g, Queueing)
         case SendAgent => RowIs(g, Queueing)
         case FourthCheck(_) => RowIs(g, Queueing)
         case Link(_) => RowIs(g, Queueing)
         case _ => false
       }
  }

  /** Steps left until the row is linked. */
  function QueueLeft(pc: Pc): nat {
    match pc
    case Q(QueueRead(_)) => 9
    case Q(FirstCheck(_)) => 8
    case Q(TryClaim) => 7
    case Q(SecondCheck) => 6
    case Q(LatestRead) => 5
    case Q(ThirdCheck) => 4
    case Q(SendAgent) => 3
    case Q(FourthCheck(_)) => 2
    case _ => 1
  }

  lemma QueueMoves(g: Shared, host: nat, pc: Pc, c: Choice, now: nat)
    requires SharedInv(g) && PcInv(g, pc) && Fits(c) && !c.fail && OnItsWayToLink(g, pc, now)
    ensures var m := Act(g, host, pc, c);
            RowLinked(m.g) || (OnItsWayToLink(m.g, m.pc, now) && QueueLeft(m.pc) < QueueLeft(pc))
  {}

  ghost predicate Queuing(s: State, p: nat, now: nat) {
    p in s.procs && (RowLinked(s.g) || OnItsWayToLink(s.g, s.procs[p].pc, now))
  }

  lemma {:induction false} QueuingRun(s: State, es: seq<Event>, p: nat, now: nat)
    requires Inv(s) && Legal(s, es) && Undisturbed(s, es, p) && Queuing(s, p, now)
    ensures Inv(After(s, es)) && Queuing(After(s, es), p, now)
    ensures RowLinked(s.g) || OwnSteps(es, p) >= QueueLeft(s.procs[p].pc) ==> RowLinked(After(s, es).g)
    decreases |es|
  {
    if es != [] {
      NextKeeps(s, es[0]);
      if es[0].Step? {
        var actor := s.procs[es[0].pid];
        ClockStands(s.g, actor.host, actor.pc, es[0].choice);
        if es[0].pid == p && !RowLinked(s.g) {
          assert PcInv(s.g, actor.pc);
          QueueMoves(s.g, actor.host, actor.pc, es[0].choice, now);
        }
      }
      QueuingRun(Next(s, es[0]), es[1..], p, now);
    }
  }

  /** Under any schedule in which nobody else writes the row and no wake commits before it is linked:
      a queue call that starts on a free, due row has it linked, after nine of its steps, to the run
      stored under the agent nonce. */
  lemma QueueCallLinks(s: State, es: seq<Event>, p: nat, now: nat)
    requires Reachable(s) && p in s.procs && s.procs[p].pc == Q(QueueRead(now)) && now <= s.g.clock
    requires RowIs(s.g, Received) && !OwnershipMark(s.g.row.value.reason) && Due(s.g.row.value, now) && !s.g.woken
    requires Legal(s, es) && Undisturbed(s, es, p)
    ensures p in After(s, es).procs
    ensures OwnSteps(es, p) >= 9 || After(s, es).procs[p].pc == Done ==>
              RowLinked(After(s, es).g) && After(s, es).g.row.value.runId == After(s, es).g.agentRun != None
  {
    ReachableInv(s);
    QueuingRun(s, es, p, now);
  }
}
