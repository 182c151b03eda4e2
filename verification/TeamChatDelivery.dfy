/** Delivery and linking over whole runs, with no timing assumption. */
module TeamChatDelivery {
  import opened Wrappers
  import opened TeamChatRows
  import opened TeamChatProtocol
  import opened TeamChatSafety

  /** The row life cycle in every reachable state. */
  lemma RowLifeCycle(s: State, row: Row)
    requires Reachable(s) && s.g.row == Some(row)
    ensures row.runId.Some? <==> row.status in {Running, Delivering, Delivered}
    ensures row.status == Queueing ==> row.reason == AgentOwned
    ensures row.status in {Deferred, Observed, Received, Ignored} ==> row.reason != AgentOwned
    ensures row.handle.Some? ==> row.status in {Delivering, Delivered}
    ensures row.status == Delivered ==> row.handle.Some?
    ensures row.status in {Deferred, Queueing} ==> row.lease.Some?
  {
    ReachableInv(s);
  }

  /** Nothing a row has reached is undone in any continuation: a run id never changes, delivering
      never returns to running, delivered and ignored are final. */
  lemma LifeCycleIsMonotone(s: State, es: seq<Event>, row: Row)
    requires Reachable(s) && s.g.row == Some(row) && Legal(s, es)
    ensures var later := After(s, es).g.row;
            && later.Some?
            && (row.runId.Some? ==> later.value.runId == row.runId)
            && (row.status in {Running, Delivering, Delivered} ==>
                  later.value.status in {Running, Delivering, Delivered})
            && (row.status in {Delivering, Delivered} ==> later.value.status in {Delivering, Delivered})
            && (row.status == Delivered ==> later.value.status == Delivered)
            && (row.status == Ignored ==> later.value.status == Ignored)
  {
    ReachableInv(s);
    RunKeeps(s, es);
  }

  // ----- at most one reply -----

  /** `send` is called at most once per event; a provider handle on the row is the handle of that
      call; and nothing is sent before the run has ended. */
  lemma AtMostOneSend(s: State)
    requires Reachable(s)
    ensures |s.g.log| <= 1
    ensures s.g.row.Some? && s.g.row.value.handle.Some? && s.g.row.value.handle.value.Provider? ==>
              s.g.log == [s.g.row.value.handle.value]
    ensures s.g.log != [] ==> Ended(s.g.run) && RowPosted(s.g)
  {
    ReachableInv(s);
  }

  ghost predicate NobodySending(s: State) {
    RowPosted(s.g) && forall p :: p in s.procs ==> !Pending(s.procs[p].pc)
  }

  lemma NobodySendingStays(s: State, e: Event)
    requires Inv(s) && NobodySending(s) && Enabled(s, e)
    ensures NobodySending(Next(s, e)) && Next(s, e).g.log == s.g.log
  {
    NextKeeps(s, e);
    if e.Step? {
      var p := s.procs[e.pid];
      ActKeeps(s.g, p.host, p.pc, e.choice);
    }
  }

  lemma {:induction false} NobodySendsLater(s: State, es: seq<Event>)
    requires Inv(s) && NobodySending(s) && Legal(s, es)
    ensures After(s, es).g.log == s.g.log
    decreases |es|
  {
    if es != [] {
      NobodySendingStays(s, es[0]);
      NextKeeps(s, es[0]);
      NobodySendsLater(Next(s, es[0]), es[1..]);
    }
  }

  /** Once a delivery is reserved and its holder is gone (crashed, timed out or done), the reply is
      never sent again, however many reconcilers and retries follow. */
  lemma NeverResent(s: State, es: seq<Event>)
    requires Reachable(s) && NobodySending(s) && Legal(s, es)
    ensures After(s, es).g.log == s.g.log
  {
    ReachableInv(s);
    NobodySendsLater(s, es);
  }

  // ----- at most one run -----

  /** Every row state of one event that carries a run id carries the same one, and it is the run
      stored under the agent nonce. */
  lemma OneRunPerEvent(s: State, es: seq<Event>)
    requires Reachable(s) && Legal(s, es)
    requires s.g.row.Some? && s.g.row.value.runId.Some?
    ensures var t := After(s, es);
            t.g.row.Some? && t.g.row.value.runId == s.g.row.value.runId == t.g.agentRun
  {
    ReachableInv(s);
    RunKeeps(s, es);
  }

  /** Every queue call that is past its send, in whatever process, holds that same run. */
  lemma QueueCallsAgreeOnTheRun(s: State, p: nat, q: nat, r1: nat, r2: nat)
    requires Reachable(s) && p in s.procs && q in s.procs
    requires s.procs[p].pc == Q(Link(r1)) || s.procs[p].pc == Q(FourthCheck(r1)) || s.procs[p].pc == Q(CancelRun(r1))
    requires s.procs[q].pc == Q(Link(r2)) || s.procs[q].pc == Q(FourthCheck(r2)) || s.procs[q].pc == Q(CancelRun(r2))
    ensures r1 == r2
  {
    ReachableInv(s);
    assert PcInv(s.g, s.procs[p].pc) && PcInv(s.g, s.procs[q].pc);
  }

  // ----- the wake nonce bars linking -----

  /** The nonce is committed and no queue call is past its last check. */
  ghost predicate Barred(s: State) {
    && s.g.woken
    && !RowLinked(s.g)
    && forall p :: p in s.procs ==> !(s.procs[p].pc.Q? && s.procs[p].pc.q.Link?)
  }

  lemma BarredStays(s: State, e: Event)
    requires Inv(s) && Barred(s) && Enabled(s, e)
    ensures Barred(Next(s, e))
  {
    NextKeeps(s, e);
    if e.Step? {
      var p := s.procs[e.pid];
      ActKeeps(s.g, p.host, p.pc, e.choice);
    }
  }

  lemma {:induction false} BarredForGood(s: State, es: seq<Event>)
    requires Inv(s) && Barred(s) && Legal(s, es)
    ensures Barred(After(s, es))
    decreases |es|
  {
    if es != [] {
      BarredStays(s, es[0]);
      NextKeeps(s, es[0]);
      BarredForGood(Next(s, es[0]), es[1..]);
    }
  }

  /** Then the row is never linked to an agent run, however leases expire. */
  lemma WakeNonceIsAPermanentBar(s: State, es: seq<Event>)
    requires Reachable(s) && Barred(s) && Legal(s, es)
    ensures !RowLinked(After(s, es).g) && After(s, es).g.woken
  {
    ReachableInv(s);
    BarredForGood(s, es);
  }

  /** A queue call that saw the nonce only after its send has ended its run before it abandons the
      row, and the run stays ended. */
  lemma AbandonedRunIsEnded(s: State, es: seq<Event>, p: nat)
    requires Reachable(s) && p in s.procs && s.procs[p].pc == Q(Abandon(true)) && Legal(s, es)
    ensures Ended(s.g.run) && After(s, es).g.run == s.g.run
  {
    ReachableInv(s);
    assert PcInv(s.g, s.procs[p].pc);
    RunKeeps(s, es);
  }
}
