/** Concrete races. Each breaks one assumption of a theorem, keeps the theorem's others, and ends in
    what the theorem rules out. Against ExclusiveOwnership: equal stamps, a failed renewal, a
    shortened lease. Against RoutineMarkMeansWoken: a foreign retry, a claim that outlives its lease.
    Against SoleHolder, with everybody in time: a retry that shortens a lease, one that wipes a claim. */
module TeamChatRaces {
  import opened Wrappers
  import opened TeamChatRows
  import opened TeamChatProtocol
  import opened TeamChatSafety
  import opened TeamChatTiming
  import opened TeamChatOwnership
  import opened TeamChatRouting
  import opened TeamChatReservations
  import opened TeamChatSchedules

  /** The committed wake and the linked row that ExclusiveOwnership rules out. */
  ghost predicate DoublyOwned(d: Discipline, es: seq<Event>) {
    && Legal(Init(false), es) && Disciplined(d, Init(false), es)
    && BothOwn(After(Init(false), es).g)
  }

  const ALL := Discipline(true, true, true, true, true, true)

  const FIRST := Row(Deferred, NoReason, Some(DEFERRED_RESERVATION_MS), None, None)
  const ROUTED := Row(Deferred, Routing, Some(ROUTING_RESERVATION_MS), None, None)
  const FREE := Row(Received, NoReason, None, None, None)

  function Start0(row: Row, inFlight: set<nat>): Shared {
    Init(false).g.(row := Some(row), inFlight := inFlight)
  }

  /** Two deliveries of one event in the same millisecond compute the same stamp: both believe they
      own the row, one releases it to an agent run and the other wakes its routine. */
  lemma EqualStampsBreakOwnership() returns (es: seq<Event>)
    ensures DoublyOwned(ALL.(stamps := false), es)
  {
    var d := ALL.(stamps := false);
    var s := Init(false);
    var t := s;
    es := [];
    es, t := Start(d, s, es, t, 0, 0, H(Upsert(0)));
    es, t := Start(d, s, es, t, 1, 1, H(Upsert(0)));
    var a, b := Proc(0, H(Upsert(0))), Proc(1, H(Upsert(0)));
    var g := Start0(FIRST, {});
    assert t.procs == map[1 := b][0 := a];
    es := DoHandler(d, s, es, map[1 := b], s.g, 0, 0, Upsert(0), QUIET, Moved(g, H(Extend)));
    a := Proc(0, H(Extend));
    assert map[1 := b][0 := a] == map[0 := a][1 := b];
    es := DoHandler(d, s, es, map[0 := a], g, 1, 1, Upsert(0), QUIET, Moved(g, H(Extend)));
    es := DoHandler(d, s, es, map[0 := a], g, 1, 1, Extend, QUIET,
                    Moved(Start0(ROUTED, {1}), H(Waiting(Reading, Beating))));
    g := Start0(ROUTED, {1});
    es := DoHandler(d, s, es, map[0 := a], g, 1, 1, Waiting(Reading, Beating), WAKE,
                    Moved(g, H(Waiting(Settled(NotWoken), Beating))));
    b := Proc(1, H(Waiting(Settled(NotWoken), Beating)));
    assert map[0 := a][1 := b] == map[1 := b][0 := a];
    es := HandlerPrepares(d, s, es, map[1 := b], g, 0, 0);
    g := Start0(ROUTED, {0, 1});
    a := Proc(0, H(Waiting(Sending, Beating)));
    assert Held(Start0(ROUTED, {1}), 0) == g;
    assert map[1 := b][0 := a] == map[0 := a][1 := b];
    es := ReleaseThenLink(d, s, es, a, g);
    g := LinkedTo(Start0(FREE, {0, 1}), 7);
    b := Proc(1, H(Finishing(On)));
    var q := Proc(2, Done);
    assert map[0 := a, 1 := b, 2 := q] == map[1 := b, 2 := q][0 := a];
    es := DoHandler(d, s, es, map[1 := b, 2 := q], g, 0, 0, Waiting(Sending, Beating), WAKE,
                    Moved(g.(woken := true), H(Waiting(Settled(Woken), Beating))));
  }

  lemma ReleaseThenLink(d: Discipline, s: State, es: seq<Event>, a: Proc, g: Shared) returns (es': seq<Event>)
    requires g == Start0(ROUTED, {0, 1})
    requires Reaches(d, s, es, State(g, map[0 := a][1 := Proc(1, H(Waiting(Settled(NotWoken), Beating)))]))
    ensures Reaches(d, s, es', State(LinkedTo(Start0(FREE, {0, 1}), 7),
                                     map[0 := a, 1 := Proc(1, H(Finishing(On))), 2 := Proc(2, Done)]))
  {
    es' := DoHandler(d, s, es, map[0 := a], g, 1, 1, Waiting(Settled(NotWoken), Beating), QUIET,
                     Moved(g, H(Resolving(false, On))));
    var freed := Start0(FREE, {0, 1});
    es' := DoHandler(d, s, es', map[0 := a], g, 1, 1, Resolving(false, On), QUIET,
                     Moved(freed, H(Finishing(On))));
    var procs := map[0 := a][1 := Proc(1, H(Finishing(On)))];
    es' := QueueLinks(d, s, es', State(freed, procs), 2, 2, 7);
    assert procs[2 := Proc(2, Done)] == map[0 := a, 1 := Proc(1, H(Finishing(On))), 2 := Proc(2, Done)];
  }

  /** A renewal that throws releases the row while its own wake is still pending. */
  lemma FailedRenewalBreaksOwnership() returns (es: seq<Event>)
    ensures DoublyOwned(ALL.(beats := false), es)
  {
    var d := ALL.(beats := false);
    var s := Init(false);
    var t := s;
    es := [];
    es, t := Start(d, s, es, t, 0, 0, H(Upsert(0)));
    var g := Start0(FIRST, {});
    es := DoHandler(d, s, es, map[], s.g, 0, 0, Upsert(0), QUIET, Moved(g, H(Extend)));
    es := HandlerPrepares(d, s, es, map[], g, 0, 0);
    g := Start0(ROUTED, {0});
    assert Held(Start0(FIRST, {}), 0) == g;
    es := DoHandler(d, s, es, map[], g, 0, 0, Waiting(Sending, Beating), BEAT.(fail := true),
                    Moved(g, H(Releasing(Sending))));
    var freed := Start0(FREE, {0});
    es := DoHandler(d, s, es, map[], g, 0, 0, Releasing(Sending), QUIET, Moved(freed, H(Detached(Sending, true))));
    var a := Proc(0, H(Detached(Sending, true)));
    es := QueueLinks(d, s, es, State(freed, map[0 := a]), 1, 1, 7);
    g := LinkedTo(freed, 7);
    assert map[][0 := a][1 := Proc(1, Done)] == map[1 := Proc(1, Done)][0 := a];
    es := DoHandler(d, s, es, map[1 := Proc(1, Done)], g, 0, 0, Detached(Sending, true), WAKE,
                    Moved(g.(woken := true), H(Detached(Settled(Woken), true))));
  }

  /** A message whose sender may not wake routines. */
  lemma Received0(d: Discipline) returns (es: seq<Event>)
    ensures Reaches(d, Init(false), es, State(Start0(FREE, {}), map[0 := Proc(0, Done)]))
  {
    var s := Init(false);
    var t;
    es, t := Start(d, s, [], s, 0, 0, H(ReceivePlain));
    es := DoHandler(d, s, es, map[], s.g, 0, 0, ReceivePlain, QUIET, Moved(Start0(FREE, {}), Done));
    assert map[][0 := Proc(0, Done)] == map[0 := Proc(0, Done)];
  }

  /** A received row, and a queue call whose first lookup threw before it claimed anything. */
  lemma QueueCallFailsEarly(d: Discipline) returns (es: seq<Event>)
    ensures Reaches(d, Init(false), es,
                    State(Start0(FREE, {}), map[0 := Proc(0, Done), 1 := Proc(1, Q(RetryRead(false)))]))
  {
    var s := Init(false);
    var t;
    var g := Start0(FREE, {});
    var base: map<nat, Proc> := map[0 := Proc(0, Done)];
    es := Received0(d);
    es, t := Start(d, s, es, State(g, base), 1, 1, Q(QueueRead(0)));
    es := DoQueue(d, s, es, base, g, 1, 1, QueueRead(0), QUIET, Moved(g, Q(FirstCheck(NoReason))));
    es := DoQueue(d, s, es, base, g, 1, 1, FirstCheck(NoReason), QUIET.(fail := true), Moved(g, Q(RetryRead(false))));
    assert base[1 := Proc(1, Q(RetryRead(false)))] == map[0 := Proc(0, Done), 1 := Proc(1, Q(RetryRead(false)))];
  }

  /** A redelivery then takes the row over and gets as far as sending its wake. */
  lemma RedeliveryTakesOver(d: Discipline) returns (es: seq<Event>)
    ensures Reaches(d, Init(false), es,
                    State(Start0(ROUTED, {2}),
                          map[0 := Proc(0, Done), 2 := Proc(2, H(Waiting(Sending, Beating))),
                              1 := Proc(1, Q(RetryRead(false)))]))
  {
    var s := Init(false);
    var base: map<nat, Proc> := map[0 := Proc(0, Done), 1 := Proc(1, Q(RetryRead(false)))];
    var g := Start0(FREE, {});
    var t;
    es := QueueCallFailsEarly(d);
    es, t := Start(d, s, es, State(g, base), 2, 2, H(Upsert(0)));
    es := DoHandler(d, s, es, base, g, 2, 2, Upsert(0), QUIET, Moved(g, H(Claim(0))));
    es := DoHandler(d, s, es, base, g, 2, 2, Claim(0), QUIET, Moved(Start0(FIRST, {}), H(Extend)));
    es := HandlerPrepares(d, s, es, base, Start0(FIRST, {}), 2, 2);
    assert Held(Start0(FIRST, {}), 2) == Start0(ROUTED, {2});
    assert base[2 := Proc(2, H(Waiting(Sending, Beating)))]
        == map[0 := Proc(0, Done), 2 := Proc(2, H(Waiting(Sending, Beating))), 1 := Proc(1, Q(RetryRead(false)))];
  }

  const SHORT := ROUTED.(lease := Some(2_000))

  /** The failed queue call's retry reads the deferred row and overwrites its thirty-minute lease
      with a two-second one. */
  lemma RetryShortensTheLease(d: Discipline) returns (es: seq<Event>)
    requires !Watched(d) && !d.lasting
    ensures Reaches(d, Init(false), es,
                    State(Start0(SHORT, {2}).(clock := 2_000),
                          map[0 := Proc(0, Done), 2 := Proc(2, H(Waiting(Sending, Beating))), 1 := Proc(1, Done)]))
  {
    var s := Init(false);
    var base: map<nat, Proc> := map[0 := Proc(0, Done), 2 := Proc(2, H(Waiting(Sending, Beating)))];
    var g := Start0(ROUTED, {2});
    es := RedeliveryTakesOver(d);
    assert base[1 := Proc(1, Q(RetryRead(false)))]
        == map[0 := Proc(0, Done), 2 := Proc(2, H(Waiting(Sending, Beating))), 1 := Proc(1, Q(RetryRead(false)))];
    es := DoQueue(d, s, es, base, g, 1, 1, RetryRead(false), QUIET, Moved(g, Q(RetryUpdate(Deferred, false))));
    es := DoQueue(d, s, es, base, g, 1, 1, RetryUpdate(Deferred, false), QUIET, Moved(Start0(SHORT, {2}), Done));
    var t := State(Start0(SHORT, {2}), base[1 := Proc(1, Done)]);
    Snoc(d, s, es, t, Tick(2_000));
    es := es + [Tick(2_000)];
    assert base[1 := Proc(1, Done)]
        == map[0 := Proc(0, Done), 2 := Proc(2, H(Waiting(Sending, Beating))), 1 := Proc(1, Done)];
  }

  /** A reconciler on another host releases the row the wake still holds. */
  lemma OtherHostReleases(d: Discipline, es: seq<Event>, base: map<nat, Proc>) returns (es': seq<Event>)
    requires !Watched(d) && 3 !in base && 4 !in base
    requires Reaches(d, Init(false), es, State(Start0(SHORT, {2}).(clock := 2_000), base))
    ensures Reaches(d, Init(false), es',
                    State(Start0(FREE, {2}).(clock := 2_000), base[3 := Proc(3, Done)][4 := Proc(3, Done)]))
  {
    var s := Init(false);
    var g := Start0(SHORT, {2}).(clock := 2_000);
    es' := RecoveryLooks(d, s, es, State(g, base), 3, 3);
    es' := DoRecover(d, s, es', base, g, 3, 3, Unwoken(2_000, Routing), Moved(g, V(ClearRouting(2_000))));
    var cleared := Start0(SHORT.(reason := NoReason), {2}).(clock := 2_000);
    es' := DoRecover(d, s, es', base, g, 3, 3, ClearRouting(2_000), Moved(cleared, Done));
    var next := base[3 := Proc(3, Done)];
    es' := RecoveryLooks(d, s, es', State(cleared, next), 4, 3);
    es' := DoRecover(d, s, es', next, cleared, 4, 3, Unwoken(2_000, NoReason), Moved(cleared, V(Promote(2_000))));
    es' := DoRecover(d, s, es', next, cleared, 4, 3, Promote(2_000),
                     Moved(Start0(FREE, {2}).(clock := 2_000), Done));
  }

  /** Two seconds into its thirty-minute reservation a healthy wake loses the row to an agent run,
      because the stored lease was shortened under it. */
  lemma ShortenedLeaseBreaksOwnership() returns (es: seq<Event>)
    ensures DoublyOwned(ALL.(leases := false, claims := false, lasting := false), es)
    ensures After(Init(false), es).g.clock == 2_000
    ensures TimelyRun(Care(true, false), Init(false), map[], es)
  {
    var d := ALL.(leases := false, claims := false, lasting := false);
    var s := Init(false);
    var procs: map<nat, Proc> :=
      map[0 := Proc(0, Done), 1 := Proc(1, Done), 3 := Proc(3, Done), 4 := Proc(3, Done), 5 := Proc(5, Done)];
    var g := LinkedTo(Start0(FREE, {2}).(clock := 2_000), 7);
    es := LinkedDuringWake(d);
    es := DoHandler(d, s, es, procs, g, 2, 2, Waiting(Sending, Beating), WAKE,
                    Moved(g.(woken := true), H(Waiting(Settled(Woken), Beating))));
    EarlyRunsAreTimely(d, s, map[], es);
  }

  /** The row is linked to an agent run while the wake is about to be sent. */
  lemma LinkedDuringWake(d: Discipline) returns (es: seq<Event>)
    requires !Watched(d) && !d.lasting
    ensures Reaches(d, Init(false), es,
                    State(LinkedTo(Start0(FREE, {2}).(clock := 2_000), 7),
                          map[0 := Proc(0, Done), 1 := Proc(1, Done), 3 := Proc(3, Done), 4 := Proc(3, Done),
                              5 := Proc(5, Done)]
                             [2 := Proc(2, H(Waiting(Sending, Beating)))]))
  {
    var w := Proc(2, H(Waiting(Sending, Beating)));
    var base: map<nat, Proc> := map[0 := Proc(0, Done), 2 := w, 1 := Proc(1, Done)];
    es := RetryShortensTheLease(d);
    es := OtherHostReleases(d, es, base);
    var procs := base[3 := Proc(3, Done)][4 := Proc(3, Done)];
    es := QueueLinks(d, Init(false), es, State(Start0(FREE, {2}).(clock := 2_000), procs), 5, 5, 7);
    assert procs[5 := Proc(5, Done)]
        == map[0 := Proc(0, Done), 1 := Proc(1, Done), 3 := Proc(3, Done), 4 := Proc(3, Done),
               5 := Proc(5, Done)][2 := w];
  }

  const CLAIMED := Row(Queueing, AgentOwned, Some(QUEUE_RESERVATION_MS), None, None)
  const WIPED := Row(Received, NoReason, Some(2_000), None, None)

  /** Two queue calls beside the failed one: the third is about to claim, the second has claimed. */
  lemma TwoMoreQueueCalls(d: Discipline) returns (es: seq<Event>)
    ensures Reaches(d, Init(false), es,
                    State(Start0(CLAIMED, {}),
                          map[0 := Proc(0, Done), 2 := Proc(2, Q(LatestRead)), 3 := Proc(3, Q(TryClaim)),
                              1 := Proc(1, Q(RetryRead(false)))]))
  {
    var s := Init(false);
    var g := Start0(FREE, {});
    var base: map<nat, Proc> := map[0 := Proc(0, Done), 1 := Proc(1, Q(RetryRead(false)))];
    es := QueueCallFailsEarly(d);
    es := QueueTries(d, s, es, State(g, base), 3, 3);
    base := base[3 := Proc(3, Q(TryClaim))];
    es := QueueTries(d, s, es, State(g, base), 2, 2);
    es := QueueTakes(d, s, es, base, g, 2, 2);
    assert Claimed(g) == Start0(CLAIMED, {});
    assert base[2 := Proc(2, Q(LatestRead))]
        == map[0 := Proc(0, Done), 2 := Proc(2, Q(LatestRead)), 3 := Proc(3, Q(TryClaim)),
               1 := Proc(1, Q(RetryRead(false)))];
  }

  /** A retry of a call that never claimed wipes another call's claim; that call takes the wiped row
      for a routine's, and retires the claim of a third. The message gets neither wake nor run. */
  lemma ForeignRetryDropsTheMessage() returns (es: seq<Event>)
    ensures Drops(ALL.(retries := false), es)
  {
    var d := ALL.(retries := false);
    var s := Init(false);
    var claimed := Start0(CLAIMED, {});
    var rest: map<nat, Proc> := map[0 := Proc(0, Done), 1 := Proc(1, Done), 2 := Proc(2, Q(Abandon(false)))];
    es := WipedCallGivesUp(d);
    es := DoQueue(d, s, es, rest, Start0(WIPED, {}), 3, 3, TryClaim, QUIET, Moved(claimed, Q(SecondCheck)));
    var last: map<nat, Proc> := map[0 := Proc(0, Done), 1 := Proc(1, Done), 3 := Proc(3, Q(SecondCheck))];
    assert rest[3 := Proc(3, Q(SecondCheck))] == last[2 := Proc(2, Q(Abandon(false)))];
    es := DoQueue(d, s, es, last, claimed, 2, 2, Abandon(false), QUIET,
                  Moved(Start0(CLAIMED.(status := Ignored, reason := RoutineWake, lease := None), {}), Done));
  }

  /** The message is retired as taken by a routine, and gets neither wake nor run. */
  ghost predicate Drops(d: Discipline, es: seq<Event>) {
    && Legal(Init(false), es) && Disciplined(d, Init(false), es)
    && var g := After(Init(false), es).g;
    RowIs(g, Ignored) && g.row.value.reason == RoutineWake && !g.woken && g.agentRun.None? && g.log == []
  }

  lemma WipedCallGivesUp(d: Discipline) returns (es: seq<Event>)
    requires !d.retries
    ensures Reaches(d, Init(false), es,
                    State(Start0(WIPED, {}),
                          map[0 := Proc(0, Done), 1 := Proc(1, Done), 2 := Proc(2, Q(Abandon(false)))]
                             [3 := Proc(3, Q(TryClaim))]))
  {
    var s := Init(false);
    var claimed, wiped := Start0(CLAIMED, {}), Start0(WIPED, {});
    var base: map<nat, Proc> := map[0 := Proc(0, Done), 2 := Proc(2, Q(LatestRead)), 3 := Proc(3, Q(TryClaim))];
    es := TwoMoreQueueCalls(d);
    assert base[1 := Proc(1, Q(RetryRead(false)))]
        == map[0 := Proc(0, Done), 2 := Proc(2, Q(LatestRead)), 3 := Proc(3, Q(TryClaim)),
               1 := Proc(1, Q(RetryRead(false)))];
    es := DoQueue(d, s, es, base, claimed, 1, 1, RetryRead(false), QUIET,
                  Moved(claimed, Q(RetryUpdate(Queueing, false))));
    es := DoQueue(d, s, es, base, claimed, 1, 1, RetryUpdate(Queueing, false), QUIET, Moved(wiped, Done));
    var others: map<nat, Proc> := map[0 := Proc(0, Done), 1 := Proc(1, Done), 3 := Proc(3, Q(TryClaim))];
    assert base[1 := Proc(1, Done)] == others[2 := Proc(2, Q(LatestRead))];
    es := DoQueue(d, s, es, others, wiped, 2, 2, LatestRead, QUIET, Moved(wiped, Q(Abandon(false))));
    assert others[2 := Proc(2, Q(Abandon(false)))]
        == map[0 := Proc(0, Done), 1 := Proc(1, Done), 2 := Proc(2, Q(Abandon(false)))][3 := Proc(3, Q(TryClaim))];
  }

  /** A call whose claim has run out abandons the claim of the call that followed it. */
  lemma LapsedClaimDropsTheMessage() returns (es: seq<Event>)
    ensures Drops(ALL.(leases := false, claims := false), es)
  {
    var d := ALL.(leases := false, claims := false);
    var s := Init(false);
    var freed := Start0(FREE, {}).(clock := QUEUE_RESERVATION_MS);
    var again := Claimed(freed);
    es := LapsedCallGivesUp(d);
    var base: map<nat, Proc> := map[0 := Proc(0, Done), 2 := Proc(2, Done)];
    es := QueueClaims(d, s, es, State(freed, base[1 := Proc(1, Q(Abandon(false)))]), 3, 3);
    var rest: map<nat, Proc> := map[0 := Proc(0, Done), 2 := Proc(2, Done), 3 := Proc(3, Q(SendAgent))];
    assert base[1 := Proc(1, Q(Abandon(false)))][3 := Proc(3, Q(SendAgent))] == rest[1 := Proc(1, Q(Abandon(false)))];
    es := DoQueue(d, s, es, rest, again, 1, 1, Abandon(false), QUIET,
                  Moved(Apply(again, AbandonQueueing(again.row.value)), Done));
  }

  lemma LapsedCallGivesUp(d: Discipline) returns (es: seq<Event>)
    requires !Watched(d)
    ensures Reaches(d, Init(false), es,
                    State(Start0(FREE, {}).(clock := QUEUE_RESERVATION_MS),
                          map[0 := Proc(0, Done), 2 := Proc(2, Done)][1 := Proc(1, Q(Abandon(false)))]))
  {
    var base: map<nat, Proc> := map[0 := Proc(0, Done), 2 := Proc(2, Done)];
    var freed := Start0(FREE, {}).(clock := QUEUE_RESERVATION_MS);
    es := ClaimRunsOut(d);
    assert map[0 := Proc(0, Done), 1 := Proc(1, Q(LatestRead))][2 := Proc(2, Done)]
           == base[1 := Proc(1, Q(LatestRead))];
    es := DoQueue(d, Init(false), es, base, freed, 1, 1, LatestRead, QUIET, Moved(freed, Q(Abandon(false))));
  }

  /** A call claims the row and stops before its barrier; its claim expires. */
  lemma ClaimRunsOut(d: Discipline) returns (es: seq<Event>)
    requires !Watched(d)
    ensures Reaches(d, Init(false), es,
                    State(Start0(FREE, {}).(clock := QUEUE_RESERVATION_MS),
                          map[0 := Proc(0, Done), 1 := Proc(1, Q(LatestRead))][2 := Proc(2, Done)]))
  {
    var s := Init(false);
    var g := Start0(FREE, {});
    var base: map<nat, Proc> := map[0 := Proc(0, Done)];
    es := Received0(d);
    es := QueueTries(d, s, es, State(g, base), 1, 1);
    es := QueueTakes(d, s, es, base, g, 1, 1);
    base := base[1 := Proc(1, Q(LatestRead))];
    assert base == map[0 := Proc(0, Done), 1 := Proc(1, Q(LatestRead))];
    es := ClaimExpires(d, es, base);
  }

  lemma ClaimExpires(d: Discipline, before: seq<Event>, base: map<nat, Proc>) returns (es: seq<Event>)
    requires !Watched(d) && 2 !in base
    requires Reaches(d, Init(false), before, State(Claimed(Start0(FREE, {})), base))
    ensures Reaches(d, Init(false), es,
                    State(Start0(FREE, {}).(clock := QUEUE_RESERVATION_MS), base[2 := Proc(2, Done)]))
  {
    var s := Init(false);
    var claimed := Claimed(Start0(FREE, {}));
    var t;
    Snoc(d, s, before, State(claimed, base), Tick(QUEUE_RESERVATION_MS));
    es := before + [Tick(QUEUE_RESERVATION_MS)];
    var later := claimed.(clock := QUEUE_RESERVATION_MS);
    es, t := Start(d, s, es, State(later, base), 2, 2, V(ExpireQueue(QUEUE_RESERVATION_MS)));
    es := DoRecover(d, s, es, base, later, 2, 2, ExpireQueue(QUEUE_RESERVATION_MS),
                    Moved(Start0(FREE, {}).(clock := QUEUE_RESERVATION_MS), Done));
  }

  /** A retry of a call that never claimed wipes the claim of a call that is about to link; another
      call claims the row, and two calls, both in time, are about to link it. */
  lemma WipedClaimHasTwoOwners() returns (es: seq<Event>)
    ensures Legal(Init(false), es) && TimelyRun(Care(false, true), Init(false), map[], es)
    ensures var t := After(Init(false), es);
            2 in t.procs && 3 in t.procs && Linking(t.procs[2].pc) && Linking(t.procs[3].pc)
  {
    var d := ALL.(retries := false);
    var s := Init(false);
    var first: map<nat, Proc> := map[0 := Proc(0, Done), 1 := Proc(1, Q(RetryRead(false)))];
    es := QueueCallFailsEarly(d);
    es := QueueReachesLink(d, s, es, State(Start0(FREE, {}), first), 2, 2, 7);
    var base: map<nat, Proc> := map[0 := Proc(0, Done), 2 := Proc(2, Q(Link(7)))];
    assert first[2 := Proc(2, Q(Link(7)))] == base[1 := Proc(1, Q(RetryRead(false)))];
    var sent := Sent(Start0(CLAIMED, {}), 7);
    assert Sent(Claimed(Start0(FREE, {})), 7) == sent;
    es := DoQueue(d, s, es, base, sent, 1, 1, RetryRead(false), QUIET, Moved(sent, Q(RetryUpdate(Queueing, false))));
    var wiped := Sent(Start0(WIPED, {}), 7);
    es := DoQueue(d, s, es, base, sent, 1, 1, RetryUpdate(Queueing, false), QUIET, Moved(wiped, Done));
    var procs := base[1 := Proc(1, Done)];
    Snoc(d, s, es, State(wiped, procs), Tick(2_000));
    es := es + [Tick(2_000)];
    es := QueueReachesLink(d, s, es, State(wiped.(clock := 2_000), procs), 3, 3, 8);
    EarlyRunsAreTimely(d, s, map[], es);
  }
}
