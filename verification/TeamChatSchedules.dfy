/** Building concrete runs of the protocol, event by event. */
module TeamChatSchedules {
  import opened Wrappers
  import opened TeamChatRows
  import opened TeamChatProtocol
  import opened TeamChatSafety
  import opened TeamChatTiming
  import opened TeamChatOwnership

  ghost predicate Reaches(d: Discipline, s: State, es: seq<Event>, t: State) {
    Legal(s, es) && After(s, es) == t && Disciplined(d, s, es)
  }

  /** The run is held to leases that last. */
  predicate Watched(d: Discipline) { d.leases || d.claims }

  lemma {:induction false} Snoc(d: Discipline, s: State, es: seq<Event>, t: State, e: Event)
    requires Reaches(d, s, es, t) && Enabled(t, e) && Allowed(d, t, e)
    requires Watched(d) ==> !Lapsed(Next(t, e).g)
    ensures Reaches(d, s, es + [e], Next(t, e))
    decreases |es|
  {
    var longer := es + [e];
    if es == [] {
      assert longer == [e] && longer[1..] == [];
    } else {
      assert longer[0] == es[0] && longer[1..] == es[1..] + [e];
      Snoc(d, Next(s, es[0]), es[1..], t, e);
    }
  }

  const QUIET := Choice(ByMain, false, false, NoReason, 0, 2_000)
  const WAKE := QUIET.(who := ByWake)
  const BEAT := QUIET.(who := ByBeat)

  lemma Start(d: Discipline, s: State, es: seq<Event>, t: State, pid: nat, host: nat, pc: Pc)
    returns (es': seq<Event>, t': State)
    requires Reaches(d, s, es, t) && pid !in t.procs && Starts(pc, t.g.clock)
    requires Watched(d) ==> !Lapsed(t.g)
    ensures Reaches(d, s, es', t') && t' == State(t.g, t.procs[pid := Proc(host, pc)])
  {
    Snoc(d, s, es, t, Spawn(pid, host, pc));
    es', t' := es + [Spawn(pid, host, pc)], Next(t, Spawn(pid, host, pc));
  }

  lemma Do(d: Discipline, s: State, es: seq<Event>, t: State, pid: nat, c: Choice, m: Moved)
    returns (es': seq<Event>, t': State)
    requires Reaches(d, s, es, t) && pid in t.procs && Fits(c)
    requires m == Act(t.g, t.procs[pid].host, t.procs[pid].pc, c)
    requires Allowed(d, t, Step(pid, c))
    requires Watched(d) ==> !Lapsed(m.g)
    ensures Reaches(d, s, es', t') && t' == State(m.g, t.procs[pid := Proc(t.procs[pid].host, m.pc)])
  {
    Snoc(d, s, es, t, Step(pid, c));
    es', t' := es + [Step(pid, c)], Next(t, Step(pid, c));
  }

  /** The run a send under the agent nonce yields: the stored one, or a new one. */
  function AgentRun(g: Shared, newRun: nat): nat { if g.agentRun.Some? then g.agentRun.value else newRun }

  function Sent(g: Shared, run: nat): Shared {
    g.(agentRun := Some(run), run := if g.agentRun.Some? then g.run else Active)
  }

  function LinkedTo(g: Shared, run: nat): Shared
    requires g.row.Some?
  {
    g.(row := Some(g.row.value.(status := Running, reason := AgentOwned, lease := None, runId := Some(run))),
       agentRun := Some(run),
       run := if g.agentRun.Some? then g.run else Active)
  }

  /** One step of a queue call or retry, with every other process as in `base`. */
  lemma DoQueue(d: Discipline, s: State, es: seq<Event>, base: map<nat, Proc>, g: Shared,
                pid: nat, host: nat, pc: QueuePc, c: Choice, m: Moved) returns (es': seq<Event>)
    requires Reaches(d, s, es, State(g, base[pid := Proc(host, Q(pc))])) && Fits(c)
    requires m == QueueStep(g, pc, c) && (Watched(d) ==> !Lapsed(m.g))
    requires d.retries ==> pc != RetryUpdate(Queueing, false)
    requires d.lasting ==> !ShorteningRetry(g, Q(pc), c)
    ensures Reaches(d, s, es', State(m.g, base[pid := Proc(host, m.pc)]))
  {
    var t;
    es', t := Do(d, s, es, State(g, base[pid := Proc(host, Q(pc))]), pid, c, m);
    assert t.procs == base[pid := Proc(host, m.pc)];
  }

  function Claimed(g: Shared): Shared
    requires g.row.Some?
  {
    g.(row := Some(ClaimQueueing(g.row.value, g.clock).row))
  }

  predicate Claimable(g: Shared) {
    RowIs(g, Received) && !OwnershipMark(g.row.value.reason) && Due(g.row.value, g.clock) && !g.woken
  }

  /** A queue call comes as far as its claim. */
  lemma QueueTries(d: Discipline, s: State, es: seq<Event>, t: State, pid: nat, host: nat)
    returns (es': seq<Event>)
    requires Reaches(d, s, es, t) && pid !in t.procs && Claimable(t.g) && (Watched(d) ==> !Lapsed(t.g))
    ensures Reaches(d, s, es', State(t.g, t.procs[pid := Proc(host, Q(TryClaim))]))
  {
    var g := t.g;
    var t';
    es', t' := Start(d, s, es, t, pid, host, Q(QueueRead(g.clock)));
    es' := DoQueue(d, s, es', t.procs, g, pid, host, QueueRead(g.clock), QUIET,
                   Moved(g, Q(FirstCheck(g.row.value.reason))));
    es' := DoQueue(d, s, es', t.procs, g, pid, host, FirstCheck(g.row.value.reason), QUIET, Moved(g, Q(TryClaim)));
  }

  /** It claims the row and looks at the nonce once more. */
  lemma QueueTakes(d: Discipline, s: State, es: seq<Event>, base: map<nat, Proc>, g: Shared, pid: nat, host: nat)
    returns (es': seq<Event>)
    requires Reaches(d, s, es, State(g, base[pid := Proc(host, Q(TryClaim))])) && Claimable(g)
    ensures Reaches(d, s, es', State(Claimed(g), base[pid := Proc(host, Q(LatestRead))]))
  {
    es' := DoQueue(d, s, es, base, g, pid, host, TryClaim, QUIET, Moved(Claimed(g), Q(SecondCheck)));
    es' := DoQueue(d, s, es', base, Claimed(g), pid, host, SecondCheck, QUIET, Moved(Claimed(g), Q(LatestRead)));
  }

  lemma QueueClaims(d: Discipline, s: State, es: seq<Event>, t: State, pid: nat, host: nat)
    returns (es': seq<Event>)
    requires Reaches(d, s, es, t) && pid !in t.procs && Claimable(t.g)
    ensures Reaches(d, s, es', State(Claimed(t.g), t.procs[pid := Proc(host, Q(SendAgent))]))
  {
    var g := Claimed(t.g);
    es' := QueueTries(d, s, es, t, pid, host);
    es' := QueueTakes(d, s, es', t.procs, t.g, pid, host);
    es' := DoQueue(d, s, es', t.procs, g, pid, host, LatestRead, QUIET, Moved(g, Q(ThirdCheck)));
    es' := DoQueue(d, s, es', t.procs, g, pid, host, ThirdCheck, QUIET, Moved(g, Q(SendAgent)));
  }

  /** An undisturbed queue call gets past its last check. */
  lemma QueueReachesLink(d: Discipline, s: State, es: seq<Event>, t: State, pid: nat, host: nat, newRun: nat)
    returns (es': seq<Event>)
    requires Reaches(d, s, es, t) && pid !in t.procs && Claimable(t.g)
    ensures var run := AgentRun(t.g, newRun);
            Reaches(d, s, es', State(Sent(Claimed(t.g), run), t.procs[pid := Proc(host, Q(Link(run)))]))
  {
    var c := QUIET.(id := newRun);
    var g := Claimed(t.g);
    var run := AgentRun(g, newRun);
    es' := QueueClaims(d, s, es, t, pid, host);
    es' := DoQueue(d, s, es', t.procs, g, pid, host, SendAgent, c, Moved(Sent(g, run), Q(FourthCheck(run))));
    es' := DoQueue(d, s, es', t.procs, Sent(g, run), pid, host, FourthCheck(run), c, Moved(Sent(g, run), Q(Link(run))));
  }

  /** An undisturbed queue call links a free, due row to the run of the agent nonce. */
  lemma QueueLinks(d: Discipline, s: State, es: seq<Event>, t: State, pid: nat, host: nat, newRun: nat)
    returns (es': seq<Event>)
    requires Reaches(d, s, es, t) && pid !in t.procs && Claimable(t.g)
    ensures Reaches(d, s, es', State(LinkedTo(t.g, AgentRun(t.g, newRun)), t.procs[pid := Proc(host, Done)]))
  {
    var run := AgentRun(t.g, newRun);
    es' := QueueReachesLink(d, s, es, t, pid, host, newRun);
    es' := DoQueue(d, s, es', t.procs, Sent(Claimed(t.g), run), pid, host, Link(run), QUIET,
                   Moved(LinkedTo(t.g, run), Done));
  }

  /** One step of a handler, with every other process as in `base`. */
  lemma DoHandler(d: Discipline, s: State, es: seq<Event>, base: map<nat, Proc>, g: Shared,
                  pid: nat, host: nat, pc: HandlerPc, c: Choice, m: Moved) returns (es': seq<Event>)
    requires Reaches(d, s, es, State(g, base[pid := Proc(host, H(pc))])) && Fits(c)
    requires m == HandlerStep(g, host, pc, c) && (Watched(d) ==> !Lapsed(m.g))
    requires d.stamps && pc.Upsert? && g.row.Some? ==> g.row.value.status != Deferred
    requires d.beats && pc.Waiting? && c.who == ByBeat ==> !c.fail
    ensures Reaches(d, s, es', State(m.g, base[pid := Proc(host, m.pc)]))
  {
    var t;
    es', t := Do(d, s, es, State(g, base[pid := Proc(host, H(pc))]), pid, c, m);
    assert t.procs == base[pid := Proc(host, m.pc)];
  }

  function Held(g: Shared, host: nat): Shared
    requires g.row.Some?
  {
    Apply(g, ExtendDeferred(g.row.value, g.clock)).(inFlight := g.inFlight + {host})
  }

  /** A handler that owns the deferred row gets as far as sending its wake. */
  lemma HandlerPrepares(d: Discipline, s: State, es: seq<Event>, base: map<nat, Proc>, g: Shared, pid: nat, host: nat)
    returns (es': seq<Event>)
    requires Reaches(d, s, es, State(g, base[pid := Proc(host, H(Extend))])) && RowIs(g, Deferred)
    ensures Reaches(d, s, es', State(Held(g, host), base[pid := Proc(host, H(Waiting(Sending, Beating)))]))
  {
    var held := Held(g, host);
    es' := DoHandler(d, s, es, base, g, pid, host, Extend, QUIET, Moved(held, H(Waiting(Reading, Beating))));
    es' := DoHandler(d, s, es', base, held, pid, host, Waiting(Reading, Beating), WAKE.(flag := true),
                     Moved(held, H(Waiting(Reserving, Beating))));
    es' := DoHandler(d, s, es', base, held, pid, host, Waiting(Reserving, Beating), WAKE,
                     Moved(held, H(Waiting(Sending, Beating))));
  }

  /** One step of recovery, with every other process as in `base`. */
  lemma DoRecover(d: Discipline, s: State, es: seq<Event>, base: map<nat, Proc>, g: Shared,
                  pid: nat, host: nat, pc: RecoverPc, m: Moved) returns (es': seq<Event>)
    requires Reaches(d, s, es, State(g, base[pid := Proc(host, V(pc))]))
    requires m == RecoverStep(g, host, pc, QUIET) && (Watched(d) ==> !Lapsed(m.g))
    ensures Reaches(d, s, es', State(m.g, base[pid := Proc(host, m.pc)]))
  {
    var t;
    es', t := Do(d, s, es, State(g, base[pid := Proc(host, V(pc))]), pid, QUIET, m);
    assert t.procs == base[pid := Proc(host, m.pc)];
  }

  /** One step of a delivery, with every other process as in `base`. */
  lemma DoDeliver(d: Discipline, s: State, es: seq<Event>, base: map<nat, Proc>, g: Shared,
                  pid: nat, host: nat, pc: DeliverPc, m: Moved) returns (es': seq<Event>)
    requires Reaches(d, s, es, State(g, base[pid := Proc(host, D(pc))]))
    requires m == DeliverStep(g, pc, QUIET) && (Watched(d) ==> !Lapsed(m.g))
    ensures Reaches(d, s, es', State(m.g, base[pid := Proc(host, m.pc)]))
  {
    var t;
    es', t := Do(d, s, es, State(g, base[pid := Proc(host, D(pc))]), pid, QUIET, m);
    assert t.procs == base[pid := Proc(host, m.pc)];
  }

  /** A reconciler reads an expired deferred row and finds no nonce. */
  lemma RecoveryLooks(d: Discipline, s: State, es: seq<Event>, t: State, pid: nat, host: nat)
    returns (es': seq<Event>)
    requires Reaches(d, s, es, t) && pid !in t.procs && !Watched(d)
    requires RowIs(t.g, Deferred) && Expired(t.g.row.value, t.g.clock) && !t.g.woken
    ensures Reaches(d, s, es', State(t.g, t.procs[pid := Proc(host, V(Unwoken(t.g.clock, t.g.row.value.reason)))]))
  {
    var g := t.g;
    var t';
    es', t' := Start(d, s, es, t, pid, host, V(RecoverRead(g.clock)));
    es' := DoRecover(d, s, es', t.procs, g, pid, host, RecoverRead(g.clock),
                     Moved(g, V(WakeLookup(g.clock, g.row.value.reason))));
    es' := DoRecover(d, s, es', t.procs, g, pid, host, WakeLookup(g.clock, g.row.value.reason),
                     Moved(g, V(Unwoken(g.clock, g.row.value.reason))));
  }
}
