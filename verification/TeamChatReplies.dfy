/** A reply does get out: what a delivery pass has done by its end, under any schedule in which the
    process goes on and nobody else writes the row. */
module TeamChatReplies {
  import opened Wrappers
  import opened TeamChatRows
  import opened TeamChatProtocol
  import opened TeamChatSafety
  import opened TeamChatTiming
  import opened TeamChatConvergence

  /** The pass goes on, finds the content empty or not as `empty` says, and is alone with the row. */
  ghost predicate Alone(s: State, es: seq<Event>, p: nat, empty: bool)
    requires Legal(s, es)
    decreases |es|
  {
    es != [] ==> (
      && GoesOn(s, es[0], p)
      && (es[0].Step? && es[0].pid == p && s.procs[p].pc == D(Content) ==> es[0].choice.flag == empty)
      && (es[0].Step? && es[0].pid != p ==> Next(s, es[0]).g.row == s.g.row)
      && Alone(Next(s, es[0]), es[1..], p, empty))
  }

  /** Nothing is said: an ambient run that failed, or that completed without content. */
  predicate SaysNothing(g: Shared, empty: bool) { g.ambient && (g.run == Completed ==> empty) }

  predicate Unsent(g: Shared) { g.row.Some? && g.row.value.handle.None? && g.log == [] }

  /** How far a delivery pass has come. */
  ghost predicate Delivers(g: Shared, pc: Pc, now: nat, empty: bool) {
    && Ended(g.run)
    && match pc {
         case D(DeliverRead(n)) => n == now && Unsent(g) && RowIs(g, Running) && Due(g.row.value, now)
         case D(Content) => Unsent(g) && RowIs(g, Running) && g.run == Completed
         case D(Reserve(_)) => Unsent(g) && RowIs(g, Running) && !SaysNothing(g, empty)
         case D(CheckHandle) => Unsent(g) && RowIs(g, Delivering) && !SaysNothing(g, empty)
         case D(CallSend) => Unsent(g) && RowIs(g, Delivering) && !SaysNothing(g, empty)
         case D(Record(h)) => h.Provider? && g.log == [h] && RowIs(g, Delivering) && !SaysNothing(g, empty)
         case D(Mark(h)) => if SaysNothing(g, empty) then Unsent(g) && RowIs(g, Running) && h == QuietHandle(g)
                            else h.Provider? && g.log == [h] && RowIs(g, Delivering)
         case Done => RowIs(g, Delivered) && Answered(g, empty)
         case _ => false
       }
  }

  function QuietHandle(g: Shared): Handle { if g.run == Completed then Silent else SilentFailure }

  /** The row's handle is that of the one call of `send`, or of the silence, with no call. */
  predicate Answered(g: Shared, empty: bool)
    requires g.row.Some?
  {
    && g.row.value.handle.Some?
    && var h := g.row.value.handle.value;
    if SaysNothing(g, empty) then h == QuietHandle(g) && g.log == [] else h.Provider? && g.log == [h]
  }

  /** Steps left to the end of the pass. */
  function Left(pc: Pc): nat {
    match pc
    case D(DeliverRead(_)) => 7
    case D(Content) => 6
    case D(Reserve(_)) => 5
    case D(CheckHandle) => 4
    case D(CallSend) => 3
    case D(Record(_)) => 2
    case D(Mark(_)) => 1
    case _ => 0
  }

  lemma PassStep(g: Shared, pc: Pc, host: nat, c: Choice, now: nat, empty: bool)
    requires SharedInv(g) && PcInv(g, pc) && Fits(c) && !c.fail && Delivers(g, pc, now, empty)
    requires pc == D(Content) ==> c.flag == empty
    ensures var m := Act(g, host, pc, c);
            Delivers(m.g, m.pc, now, empty) && (pc != Done ==> Left(m.pc) < Left(pc))
  {}

  ghost predicate NobodyPending(s: State) { forall q :: q in s.procs ==> !Pending(s.procs[q].pc) }

  /** The pass is on its way, and if it says nothing nobody else is about to. */
  ghost predicate Replying(s: State, p: nat, now: nat, empty: bool) {
    && p in s.procs && Delivers(s.g, s.procs[p].pc, now, empty)
    && (SaysNothing(s.g, empty) ==> NobodyPending(s))
  }

  lemma OwnStep(s: State, p: nat, c: Choice, now: nat, empty: bool)
    requires Inv(s) && Enabled(s, Step(p, c)) && Replying(s, p, now, empty) && !c.fail
    requires s.procs[p].pc == D(Content) ==> c.flag == empty
    ensures Replying(Next(s, Step(p, c)), p, now, empty)
    ensures s.procs[p].pc != Done ==> Left(Next(s, Step(p, c)).procs[p].pc) < Left(s.procs[p].pc)
    ensures s.procs[p].pc == Done ==> Next(s, Step(p, c)).procs[p].pc == Done
  {
    var actor := s.procs[p];
    assert PcInv(s.g, actor.pc);
    AmbientStands(s.g, actor.host, actor.pc, c);
    ActKeeps(s.g, actor.host, actor.pc, c);
    PassStep(s.g, actor.pc, actor.host, c, now, empty);
  }

  /** A bystander that leaves the row alone sends nothing either. */
  lemma BystanderStep(s: State, pid: nat, c: Choice, p: nat, now: nat, empty: bool)
    requires Inv(s) && Enabled(s, Step(pid, c)) && p in s.procs && pid != p
    requires Replying(s, p, now, empty) && Next(s, Step(pid, c)).g.row == s.g.row
    ensures Replying(Next(s, Step(pid, c)), p, now, empty)
  {
    var actor := s.procs[pid];
    StepKeeps(s, pid, c);
    ActKeeps(s.g, actor.host, actor.pc, c);
    AmbientStands(s.g, actor.host, actor.pc, c);
    assert PcInv(s.g, actor.pc);
    if Pending(s.procs[p].pc) { assert !Pending(actor.pc); }
    if Act(s.g, actor.host, actor.pc, c).g.log != s.g.log { assert Pending(actor.pc); }
    if NobodyPending(s) { NoNewSender(s, pid, c); }
  }

  /** Becoming about to send changes the row. */
  lemma SenderReserves(g: Shared, host: nat, pc: Pc, c: Choice)
    requires SharedInv(g) && PcInv(g, pc) && Fits(c) && !Pending(pc) && Pending(Act(g, host, pc, c).pc)
    ensures Act(g, host, pc, c).g.row != g.row
  {
    assert pc.D? && pc.d.Reserve?;
  }

  /** Leaving the row alone, nobody becomes about to send. */
  lemma NoNewSender(s: State, pid: nat, c: Choice)
    requires Inv(s) && Enabled(s, Step(pid, c)) && NobodyPending(s)
    requires Next(s, Step(pid, c)).g.row == s.g.row
    ensures NobodyPending(Next(s, Step(pid, c)))
  {
    var actor := s.procs[pid];
    assert PcInv(s.g, actor.pc);
    if Pending(Act(s.g, actor.host, actor.pc, c).pc) { SenderReserves(s.g, actor.host, actor.pc, c); }
  }

  lemma AmbientStands(g: Shared, host: nat, pc: Pc, c: Choice)
    requires Fits(c)
    ensures Act(g, host, pc, c).g.ambient == g.ambient
  {}

  lemma OtherStep(s: State, e: Event, p: nat, now: nat, empty: bool)
    requires Inv(s) && Enabled(s, e) && !e.Step? && GoesOn(s, e, p) && Replying(s, p, now, empty)
    ensures Replying(Next(s, e), p, now, empty) && Next(s, e).procs[p] == s.procs[p]
  {}

  lemma {:induction false} ReplyingRun(s: State, es: seq<Event>, p: nat, now: nat, empty: bool)
    requires Inv(s) && Legal(s, es) && Alone(s, es, p, empty) && Replying(s, p, now, empty)
    ensures Replying(After(s, es), p, now, empty)
    ensures OwnSteps(es, p) >= Left(s.procs[p].pc) ==> After(s, es).procs[p].pc == Done
    ensures s.procs[p].pc == Done ==> After(s, es).procs[p].pc == Done
    decreases |es|
  {
    if es != [] {
      NextKeeps(s, es[0]);
      match es[0] {
        case Step(pid, c) =>
          if pid == p { OwnStep(s, p, c, now, empty); }
          else { BystanderStep(s, pid, c, p, now, empty); }
        case _ => OtherStep(s, es[0], p, now, empty);
      }
      ReplyingRun(Next(s, es[0]), es[1..], p, now, empty);
    }
  }

  /** A delivery pass that starts on a due running row without a handle, whose run has ended, is over
      after seven of its steps. The row is then delivered: with the handle of the one call of `send`;
      or, for an ambient run that failed or completed without content, with the mark of silence, and
      nothing was sent. */
  lemma DeliveryPassReplies(s: State, es: seq<Event>, p: nat, now: nat, empty: bool)
    requires Reachable(s) && p in s.procs && s.procs[p].pc == D(DeliverRead(now))
    requires RowIs(s.g, Running) && s.g.row.value.handle.None? && Due(s.g.row.value, now) && Ended(s.g.run)
    requires Legal(s, es) && Alone(s, es, p, empty)
    ensures var t := After(s, es);
            && p in t.procs && (OwnSteps(es, p) >= 7 ==> t.procs[p].pc == Done)
            && (t.procs[p].pc == Done ==>
                  && RowIs(t.g, Delivered) && t.g.row.value.handle.Some?
                  && var h := t.g.row.value.handle.value;
                  if s.g.ambient && (s.g.run == Completed ==> empty)
                  then h == (if s.g.run == Completed then Silent else SilentFailure) && t.g.log == []
                  else h.Provider? && t.g.log == [h])
  {
    ReachableInv(s);
    forall q | q in s.procs ensures !Pending(s.procs[q].pc) { assert PcInv(s.g, s.procs[q].pc); }
    ReplyingRun(s, es, p, now, empty);
    RunStands(s, es);
  }

  lemma {:induction false} RunStands(s: State, es: seq<Event>)
    requires Inv(s) && Legal(s, es) && Ended(s.g.run)
    ensures After(s, es).g.run == s.g.run && After(s, es).g.ambient == s.g.ambient
    decreases |es|
  {
    if es != [] {
      NextKeeps(s, es[0]);
      if es[0].Step? {
        AmbientStands(s.g, s.procs[es[0].pid].host, s.procs[es[0].pid].pc, es[0].choice);
      }
      RunStands(Next(s, es[0]), es[1..]);
    }
  }

  // ----- a reply that was recorded -----

  /** A reply that was sent and recorded, but not yet marked as delivered. */
  predicate Recorded(g: Shared, h: Handle, now: nat) {
    RowIs(g, Delivering) && g.row.value.handle == Some(h) && Due(g.row.value, now)
  }

  /** How far a pass has come with a recorded reply. */
  predicate Completes(g: Shared, pc: Pc, h: Handle, now: nat, empty: bool) {
    if RowIs(g, Delivered) then g.row.value.handle == Some(h) && pc == Done
    else Recorded(g, h, now) && Ended(g.run) && !SaysNothing(g, empty)
         && match pc {
              case D(DeliverRead(n)) => n == now
              case D(Content) => g.run == Completed
              case D(Reserve(_)) => true
              case D(CheckPosted(_)) => true
              case D(Mark(handle)) => handle == h
              case _ => false
            }
  }

  function RecordedLeft(pc: Pc): nat {
    match pc
    case D(DeliverRead(_)) => 5
    case D(Content) => 4
    case D(Reserve(_)) => 3
    case D(CheckPosted(_)) => 2
    case D(Mark(_)) => 1
    case _ => 0
  }

  lemma CompletingStep(g: Shared, host: nat, pc: Pc, c: Choice, h: Handle, now: nat, empty: bool)
    requires SharedInv(g) && PcInv(g, pc) && Fits(c) && !c.fail && Completes(g, pc, h, now, empty)
    requires pc == D(Content) ==> c.flag == empty
    ensures var m := Act(g, host, pc, c);
            && Completes(m.g, m.pc, h, now, empty) && m.g.log == g.log && m.g.ambient == g.ambient
            && (pc != Done ==> RecordedLeft(m.pc) < RecordedLeft(pc))
  {}

  lemma CompletingEvent(s: State, e: Event, p: nat, h: Handle, now: nat, empty: bool)
    requires Inv(s) && Enabled(s, e) && GoesOn(s, e, p) && p in s.procs
    requires e.Step? && e.pid == p && s.procs[p].pc == D(Content) ==> e.choice.flag == empty
    requires e.Step? && e.pid != p ==> Next(s, e).g.row == s.g.row
    requires Completes(s.g, s.procs[p].pc, h, now, empty)
    ensures var t := Next(s, e);
            && p in t.procs && Completes(t.g, t.procs[p].pc, h, now, empty)
            && (e.Step? && e.pid == p && s.procs[p].pc != Done ==>
                  RecordedLeft(t.procs[p].pc) < RecordedLeft(s.procs[p].pc))
            && (s.procs[p].pc == Done || !(e.Step? && e.pid == p) ==> t.procs[p] == s.procs[p])
  {
    if e.Step? {
      var actor := s.procs[e.pid];
      assert PcInv(s.g, actor.pc);
      if e.pid == p {
        CompletingStep(s.g, actor.host, actor.pc, e.choice, h, now, empty);
      } else {
        ActKeeps(s.g, actor.host, actor.pc, e.choice);
        AmbientStands(s.g, actor.host, actor.pc, e.choice);
      }
    }
  }

  lemma {:induction false} CompletingRun(s: State, es: seq<Event>, p: nat, h: Handle, now: nat, empty: bool)
    requires Inv(s) && Legal(s, es) && Alone(s, es, p, empty) && p in s.procs
    requires Completes(s.g, s.procs[p].pc, h, now, empty)
    ensures p in After(s, es).procs && Completes(After(s, es).g, After(s, es).procs[p].pc, h, now, empty)
    ensures s.procs[p].pc == Done || OwnSteps(es, p) >= RecordedLeft(s.procs[p].pc)
            ==> After(s, es).procs[p].pc == Done
    decreases |es|
  {
    if es != [] {
      NextKeeps(s, es[0]);
      CompletingEvent(s, es[0], p, h, now, empty);
      CompletingRun(Next(s, es[0]), es[1..], p, h, now, empty);
    }
  }

  /** A pass that finds a reply recorded but not marked, after a crash between the two, marks it with its
      own handle within five of its steps. That it is not sent again is AtMostOneSend. */
  lemma RecordedReplyIsCompleted(s: State, es: seq<Event>, p: nat, h: Handle, now: nat, empty: bool)
    requires Reachable(s) && p in s.procs && s.procs[p].pc == D(DeliverRead(now)) && Recorded(s.g, h, now)
    requires !(s.g.ambient && (s.g.run == Completed ==> empty))
    requires Legal(s, es) && Alone(s, es, p, empty)
    ensures var t := After(s, es);
            && p in t.procs && (OwnSteps(es, p) >= 5 ==> t.procs[p].pc == Done)
            && (t.procs[p].pc == Done ==> RowIs(t.g, Delivered) && t.g.row.value.handle == Some(h))
  {
    ReachableInv(s);
    CompletingRun(s, es, p, h, now, empty);
  }

  // ----- the handle is stored first -----

  /** Who is about to mark a row as delivered with a provider's handle. */
  predicate MarksProvider(pc: Pc) {
    || (pc.D? && pc.d.Mark? && pc.d.handle.Provider?)
    || (pc.Q? && pc.q.RetryMark?)
  }

  ghost predicate StoredFirst(s: State) {
    forall p :: p in s.procs && MarksProvider(s.procs[p].pc) ==> s.g.row.Some? && s.g.row.value.handle.Some?
  }

  lemma StepStores(g: Shared, host: nat, pc: Pc, c: Choice)
    requires SharedInv(g) && PcInv(g, pc) && Fits(c)
    requires MarksProvider(pc) ==> g.row.Some? && g.row.value.handle.Some?
    ensures var m := Act(g, host, pc, c);
            MarksProvider(m.pc) ==> m.g.row.Some? && m.g.row.value.handle.Some?
  {}

  lemma {:induction false} StoredFirstRun(s: State, es: seq<Event>)
    requires Inv(s) && StoredFirst(s) && Legal(s, es)
    ensures StoredFirst(After(s, es))
    decreases |es|
  {
    if es != [] {
      NextKeeps(s, es[0]);
      if es[0].Step? {
        var actor := s.procs[es[0].pid];
        assert PcInv(s.g, actor.pc);
        StepStores(s.g, actor.host, actor.pc, es[0].choice);
      }
      StoredFirstRun(Next(s, es[0]), es[1..]);
    }
  }

  /** A provider's handle is on the row before anybody marks the row as delivered with it, so that a crash
      in between loses nothing. */
  lemma HandleIsStoredFirst(s: State, p: nat)
    requires Reachable(s) && p in s.procs && MarksProvider(s.procs[p].pc)
    ensures s.g.row.Some? && s.g.row.value.handle.Some?
  {
    var ambient, es :| Legal(Init(ambient), es) && After(Init(ambient), es) == s;
    ReachableInv(s);
    StoredFirstRun(Init(ambient), es);
  }
}
