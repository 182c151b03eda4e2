/** One inbound event, its stored row, and every process that may touch that row.

    A process is a program counter over the awaits of the original; one step runs the code up to
    and including its next database or provider call. Any number of processes on any number of
    hosts run interleaved, and a host may crash between any two steps. */
module TeamChatProtocol {
  import opened Wrappers
  import opened TeamChatRows

  datatype RunState = NoRun | Active | Completed | Failed | Cancelled

  /** Everything shared between processes.
      `woken`: the routine-wake nonce is committed. `agentRun`: the run stored under the agent nonce.
      `log`: one entry for every call of the provider's `send`, in order, thrown or not.
      `inFlight`: the hosts whose bridge has marked the event as a wake in flight. */
  datatype Shared = Shared(
    clock: nat,
    ambient: bool,
    row: Option<Row>,
    woken: bool,
    agentRun: Option<nat>,
    run: RunState,
    log: seq<Handle>,
    inFlight: set<nat>)

  datatype WakeResult = Woken | NotWoken | WakeThrew
  datatype Wake = Reading | Reserving | Sending | Settled(result: WakeResult)
  /** The heartbeat as `handleTeamChatInbound` sees it: the first one, a reported loss, the second
      one started after a loss, or none. */
  datatype Beat = Beating | LostPending | Holding | NotHolding

  /** A heartbeat once the wake is settled: none, stopped with one renewal still under way, or on. */
  datatype Pulse = Off | Last | On

  /** `handleTeamChatInbound` and `receive`. */
  datatype HandlerPc =
    | ReceivePlain                              // receive(mapped): sender may not wake routines
    | Upsert(now: nat)                          // receive(mapped, queueAgent: false)
    | Claim(now: nat)
    | Extend                                    // first heartbeat extension
    | Waiting(wake: Wake, beat: Beat)
    | Resolving(woken: bool, pulse: Pulse)
    | Releasing(wake: Wake)                     // a renewal threw: release while the wake runs on
    | Detached(wake: Wake, marked: bool)
    | Finishing(pulse: Pulse)
    | Trailing                                  // over, but a renewal is still under way

  /** `queue` and, for both queueing and delivering, `retry`.
      `claimed` records whether this call won its queueing claim. */
  datatype QueuePc =
    | QueueRead(now: nat)
    | FirstCheck(reason: Reason)
    | AbandonEarly
    | TryClaim
    | SecondCheck
    | LatestRead
    | ThirdCheck
    | SendAgent
    | FourthCheck(run: nat)
    | CancelRun(run: nat)
    | Abandon(sent: bool)
    | Link(run: nat)
    | RetryRead(claimed: bool)
    | RetryUpdate(read: Status, claimed: bool)
    | RetryMark(handle: Handle)

  /** `deliverCompletion`, `deliverFailure`, `reserveDelivery`, `sendOnce`, `markDelivered`. */
  datatype DeliverPc =
    | DeliverRead(now: nat)
    | Content
    | Reserve(now: nat)
    | CheckPosted(now: nat)
    | Finalize(now: nat)
    | CheckHandle
    | CallSend
    | Record(handle: Handle)
    | Mark(handle: Handle)

  /** `recoverInterruptedRoutineRoutes`, `recoverExpiredDeferredMessages`, the queueing expiry of
      `reconcile`, and `evaluateAmbient`. */
  datatype RecoverPc =
    | Startup(now: nat)
    | RecoverRead(now: nat)
    | WakeLookup(now: nat, reason: Reason)
    | Unwoken(now: nat, reason: Reason)
    | IgnoreWoken(now: nat)
    | ClearRouting(now: nat)
    | Promote(now: nat)
    | ExpireQueue(now: nat)
    | AmbientRead
    | AmbientIgnore
    | AmbientPromote(reason: Reason)

  datatype Pc = H(h: HandlerPc) | Q(q: QueuePc) | D(d: DeliverPc) | V(v: RecoverPc) | Done

  datatype Proc = Proc(host: nat, pc: Pc)

  datatype State = State(g: Shared, procs: map<nat, Proc>)

  /** Who of a waiting handler moves: its wake, its heartbeat timer, or its main flow. */
  datatype Who = ByWake | ByBeat | ByMain

  /** The outcomes a step leaves open. `fail`: the awaited call throws. `flag`, `reason`, `id`:
      what is read from a table outside the model, the judge or the provider. */
  datatype Choice = Choice(who: Who, fail: bool, flag: bool, reason: Reason, id: nat, delay: nat)

  datatype Event =
    | Tick(ms: nat)
    | Spawn(pid: nat, host: nat, pc: Pc)
    | Step(pid: nat, choice: Choice)
    | Crash(host: nat)
    | RunEnds(outcome: RunState)

  /** The shared state and the process after one step. */
  datatype Moved = Moved(g: Shared, pc: Pc)

  function Apply(g: Shared, w: Write): Shared
    requires g.row.Some?
  {
    g.(row := Some(w.row))
  }

  // ----- handler -----

  /** `extendDeferredReservation`: the state after it and whether it held. */
  function Extended(g: Shared): (Shared, bool) {
    if g.row.None? then (g, false)
    else var w := ExtendDeferred(g.row.value, g.clock); (Apply(g, w), w.won)
  }

  function WakeStep(g: Shared, wake: Wake, c: Choice): (Shared, Wake) {
    match wake
    case Reading =>
      (g, if c.fail then Settled(WakeThrew) else if c.flag then Reserving else Settled(NotWoken))
    case Reserving =>
      if c.fail then (g, Settled(WakeThrew))
      else if g.row.None? then (g, Settled(NotWoken))
      else
        var w := ReserveWake(g.row.value, g.clock);
        (Apply(g, w), if w.won then Sending else Settled(NotWoken))
    case Sending =>
      if c.fail then (g, Settled(WakeThrew)) else (g.(woken := true), Settled(Woken))
    case Settled(_) => (g, wake)
  }

  function WaitingStep(g: Shared, wake: Wake, beat: Beat, c: Choice): Moved {
    match c.who
    case ByWake =>
      var (g', wake') := WakeStep(g, wake, c);
      Moved(g', H(Waiting(wake', beat)))
    case ByBeat => (
      match beat
      case Beating =>
        if c.fail then
          Moved(g, H(if wake.Settled? then Waiting(wake, NotHolding) else Releasing(wake)))
        else
          var (g', held) := Extended(g);
          Moved(g', H(Waiting(wake, if held then Beating else if wake.Settled? then NotHolding else LostPending)))
      case Holding =>
        if c.fail then Moved(g, H(Waiting(wake, NotHolding)))
        else
          var (g', held) := Extended(g);
          Moved(g', H(Waiting(wake, if held then Holding else NotHolding)))
      case _ => Moved(g, H(Waiting(wake, beat))))
    case ByMain =>
      if beat == LostPending then
        if c.fail then Moved(g, H(Waiting(wake, NotHolding)))
        else
          var (g', held) := Extended(g);
          Moved(g', H(Waiting(wake, if held then Holding else NotHolding)))
      else if wake.Settled? then
        // The second heartbeat is stopped before a settled wake is resolved, but after a failed one.
        var pulse := if beat == Beating || (beat == Holding && wake.result == WakeThrew) then On
                     else if beat == Holding then Last else Off;
        Moved(g, H(Resolving(wake.result == Woken, pulse)))
      else Moved(g, H(Waiting(wake, beat)))
  }

  /** One renewal of a heartbeat. */
  function PulseStep(g: Shared, pulse: Pulse, c: Choice): (Shared, Pulse) {
    if pulse == Off || c.fail then (g, Off)
    else var (g', held) := Extended(g); (g', if pulse == On && held then On else Off)
  }

  function HandlerStep(g: Shared, host: nat, pc: HandlerPc, c: Choice): Moved {
    match pc
    case ReceivePlain =>
      Moved(if c.fail || g.row.Some? then g else g.(row := Some(NewPlain(g.ambient))), Done)
    case Upsert(now) =>
      var until := now + DEFERRED_RESERVATION_MS;
      if c.fail then Moved(g, Done)
      else if g.row.None? then Moved(g.(row := Some(NewDeferred(until))), H(Extend))
      else if g.row.value.status == Deferred && g.row.value.lease == Some(until) then Moved(g, H(Extend))
      else Moved(g, H(Claim(now)))
    case Claim(now) =>
      if c.fail || g.row.None? then Moved(g, Done)
      else
        var w := ClaimDeferred(g.row.value, now, now + DEFERRED_RESERVATION_MS);
        Moved(Apply(g, w), if w.won then H(Extend) else Done)
    case Extend =>
      if c.fail then Moved(g, Done)
      else
        var (g', held) := Extended(g);
        if held then Moved(g'.(inFlight := g'.inFlight + {host}), H(Waiting(Reading, Beating)))
        else Moved(g', Done)
    case Waiting(wake, beat) => WaitingStep(g, wake, beat, c)
    case Resolving(woken, pulse) =>
      if c.who == ByBeat then var (g', pulse') := PulseStep(g, pulse, c); Moved(g', H(Resolving(woken, pulse')))
      else if c.fail || g.row.None? then Moved(g, H(Finishing(pulse)))
      else
        var w := if woken then ResolveRoutine(g.row.value) else ResolveAgent(g.row.value, g.ambient);
        Moved(Apply(g, w), H(Finishing(pulse)))
    case Releasing(wake) =>
      if c.who == ByWake then
        var (g', wake') := WakeStep(g, wake, c);
        Moved(g', H(Releasing(wake')))
      else if c.fail || g.row.None? then Moved(g, H(Detached(wake, true)))
      else Moved(Apply(g, ResolveAgent(g.row.value, g.ambient)), H(Detached(wake, true)))
    case Detached(wake, marked) =>
      if c.who == ByWake then
        var (g', wake') := WakeStep(g, wake, c);
        Moved(g', H(Detached(wake', marked)))
      else if marked then Moved(g.(inFlight := g.inFlight - {host}), H(Detached(wake, false)))
      else Moved(g, if wake.Settled? then Done else H(pc))
    case Finishing(pulse) =>
      if c.who == ByBeat then var (g', pulse') := PulseStep(g, pulse, c); Moved(g', H(Finishing(pulse')))
      else Moved(g.(inFlight := g.inFlight - {host}), if pulse == Off then Done else H(Trailing))
    case Trailing => Moved(if c.who == ByBeat && !c.fail then Extended(g).0 else g, Done)
  }

  // ----- queue and retry -----

  predicate RetryDelay(delay: nat) { 2_000 <= delay <= 60_000 }

  function QueueStep(g: Shared, pc: QueuePc, c: Choice): Moved
    requires RetryDelay(c.delay)
  {
    match pc
    case QueueRead(now) =>
      if !c.fail && g.row.Some? && g.row.value.status == Received && Due(g.row.value, now)
      then Moved(g, Q(FirstCheck(g.row.value.reason)))
      else Moved(g, Done)
    case FirstCheck(reason) =>
      if RoutingOwned(reason) then Moved(g, Done)
      else if c.fail then Moved(g, Q(RetryRead(false)))
      else Moved(g, Q(if g.woken then AbandonEarly else TryClaim))
    case AbandonEarly =>
      if c.fail then Moved(g, Q(RetryRead(false)))
      else if g.row.None? then Moved(g, Done)
      else Moved(Apply(g, AbandonReceived(g.row.value)), Done)
    case TryClaim =>
      if c.fail then Moved(g, Q(RetryRead(false)))
      else if g.row.None? then Moved(g, Done)
      else
        var w := ClaimQueueing(g.row.value, g.clock);
        Moved(Apply(g, w), if w.won then Q(SecondCheck) else Done)
    case SecondCheck =>
      Moved(g, Q(if c.fail then RetryRead(true) else if g.woken then Abandon(false) else LatestRead))
    case LatestRead =>
      if c.fail then Moved(g, Q(RetryRead(true)))
      else if g.row.Some? && g.row.value.status == Queueing && g.row.value.reason == AgentOwned
      then Moved(g, Q(ThirdCheck))
      else Moved(g, Q(Abandon(false)))
    case ThirdCheck =>
      Moved(g, Q(if c.fail then RetryRead(true) else if g.woken then Abandon(false) else SendAgent))
    case SendAgent =>
      // sendUserMessage: atomic and idempotent under the agent nonce.
      if c.fail then Moved(g, Q(RetryRead(true)))
      else if g.agentRun.Some? then Moved(g, Q(FourthCheck(g.agentRun.value)))
      else Moved(g.(agentRun := Some(c.id), run := Active), Q(FourthCheck(c.id)))
    case FourthCheck(run) =>
      Moved(g, Q(if c.fail then RetryRead(true) else if g.woken then CancelRun(run) else Link(run)))
    case CancelRun(run) =>
      if c.fail then Moved(g, Q(RetryRead(true)))
      else Moved(if g.run == Active then g.(run := Cancelled) else g, Q(Abandon(true)))
    case Abandon(_) =>
      if c.fail then Moved(g, Q(RetryRead(true)))
      else if g.row.None? then Moved(g, Done)
      else Moved(Apply(g, AbandonQueueing(g.row.value)), Done)
    case Link(run) =>
      if c.fail || g.row.None? then Moved(g, Q(RetryRead(true)))
      else
        var w := LinkRun(g.row.value, run);
        // A lost claim throws; so may the enqueue after a won link (`flag`).
        Moved(Apply(g, w), if !w.won then Q(RetryRead(true)) else if c.flag then Q(RetryRead(false)) else Done)
    case RetryRead(claimed) =>
      if c.fail || g.row.None? then Moved(g, Done)
      else if g.row.value.handle.Some? then
        Moved(g, if g.row.value.status == Delivered then Done else Q(RetryMark(g.row.value.handle.value)))
      else if g.row.value.status == Delivered then Moved(g, Done)
      else Moved(g, Q(RetryUpdate(g.row.value.status, claimed)))
    case RetryUpdate(read, _) =>
      if c.fail || g.row.None? then Moved(g, Done)
      else Moved(Apply(g, RetryWrite(g.row.value, read, g.clock + c.delay)), Done)
    case RetryMark(handle) =>
      if c.fail || g.row.None? then Moved(g, Done)
      else Moved(g.(row := Some(MarkDelivered(g.row.value, handle))), Done)
  }

  // ----- delivery -----

  function DeliverStep(g: Shared, pc: DeliverPc, c: Choice): Moved {
    match pc
    case DeliverRead(now) =>
      if c.fail || g.row.None? || !(g.row.value.status == Running || g.row.value.status == Delivering)
         || !Due(g.row.value, now)
      then Moved(g, Done)
      else if g.run == Completed then Moved(g, D(Content))
      else if g.run == Failed || g.run == Cancelled then
        Moved(g, D(if g.ambient then Mark(SilentFailure) else Reserve(g.clock)))
      else Moved(g, Done)
    case Content =>
      // `flag`: the response text is empty and the event is ambient.
      if c.fail then Moved(g, Q(RetryRead(false)))
      else Moved(g, D(if c.flag && g.ambient then Mark(Silent) else Reserve(g.clock)))
    case Reserve(now) =>
      if c.fail || g.row.None? then Moved(g, Q(RetryRead(false)))
      else
        var w := ReserveDelivery(g.row.value, now);
        Moved(Apply(g, w), D(if w.won then CheckHandle else CheckPosted(now)))
    case CheckPosted(now) =>
      if c.fail || g.row.None? then Moved(g, Q(RetryRead(false)))
      else if g.row.value.status == Delivering && g.row.value.handle.Some?
      then Moved(g, D(Mark(g.row.value.handle.value)))
      else Moved(g, D(Finalize(now)))
    case Finalize(now) =>
      if c.fail || g.row.None? then Moved(g, Q(RetryRead(false)))
      else Moved(Apply(g, FinalizeUnconfirmed(g.row.value, now)), Done)
    case CheckHandle =>
      if c.fail || g.row.None? then Moved(g, Q(RetryRead(false)))
      else if g.row.value.handle.Some? then Moved(g, D(Mark(g.row.value.handle.value)))
      else Moved(g, D(CallSend))
    case CallSend =>
      // Logged whether or not the call throws, and whether or not a throwing call reached the provider.
      var sent := g.(log := g.log + [Provider(c.id)]);
      Moved(sent, if c.fail then Q(RetryRead(false)) else D(Record(Provider(c.id))))
    case Record(handle) =>
      if c.fail || g.row.None? then Moved(g, Q(RetryRead(false)))
      else Moved(g.(row := Some(RecordHandle(g.row.value, handle))), D(Mark(handle)))
    case Mark(handle) =>
      if c.fail || g.row.None? then Moved(g, Q(RetryRead(false)))
      else Moved(g.(row := Some(MarkDelivered(g.row.value, handle))), Done)
  }

  // ----- recovery and ambient evaluation -----

  function RecoverStep(g: Shared, host: nat, pc: RecoverPc, c: Choice): Moved {
    if c.fail || g.row.None? then Moved(g, Done)
    else
      var row := g.row.value;
      match pc
      case Startup(now) => Moved(Apply(g, ClearExpiredRouting(row, now)), Done)
      case RecoverRead(now) =>
        Moved(g, if row.status == Deferred && Expired(row, now) then V(WakeLookup(now, row.reason)) else Done)
      case WakeLookup(now, reason) =>
        Moved(g, V(if g.woken then IgnoreWoken(now) else Unwoken(now, reason)))
      case Unwoken(now, reason) =>
        if RoutingOwned(reason) then Moved(g, if host in g.inFlight then Done else V(ClearRouting(now)))
        else Moved(g, V(Promote(now)))
      case IgnoreWoken(now) => Moved(Apply(g, IgnoreExpired(row, now)), Done)
      case ClearRouting(now) => Moved(Apply(g, ClearExpiredRouting(row, now)), Done)
      case Promote(now) => Moved(Apply(g, PromoteExpired(row, now, g.ambient)), Done)
      case ExpireQueue(now) => Moved(Apply(g, ExpireQueueing(row, now)), Done)
      case AmbientRead =>
        if row.status != Observed then Moved(g, Done)
        else Moved(g, V(if c.flag then AmbientPromote(c.reason) else AmbientIgnore))
      case AmbientIgnore => Moved(Apply(g, IgnoreAmbient(row)), Done)
      case AmbientPromote(reason) => Moved(Apply(g, PromoteAmbient(row, reason)), Done)
  }

  function Act(g: Shared, host: nat, pc: Pc, c: Choice): Moved
    requires RetryDelay(c.delay)
  {
    match pc
    case H(h) => HandlerStep(g, host, h, c)
    case Q(q) => QueueStep(g, q, c)
    case D(d) => DeliverStep(g, d, c)
    case V(v) => RecoverStep(g, host, v, c)
    case Done => Moved(g, Done)
  }

  // ----- runs -----

  function Init(ambient: bool): State {
    State(Shared(0, ambient, None, false, None, NoRun, [], {}), map[])
  }

  /** Where a new process starts; `now` is read from the clock as it starts. */
  predicate Starts(pc: Pc, clock: nat) {
    || pc == H(ReceivePlain) || pc == H(Upsert(clock))
    || pc == Q(QueueRead(clock)) || pc == D(DeliverRead(clock))
    || pc == V(Startup(clock)) || pc == V(RecoverRead(clock)) || pc == V(ExpireQueue(clock))
    || pc == V(AmbientRead)
  }

  /** The judge's text is never one of the ownership marks. */
  predicate Fits(c: Choice) { RetryDelay(c.delay) && (c.reason == NoReason || c.reason.Judged?) }

  predicate Enabled(s: State, e: Event) {
    match e
    case Tick(_) => true
    case Spawn(pid, _, pc) => pid !in s.procs && Starts(pc, s.g.clock)
    case Step(pid, c) => pid in s.procs && Fits(c)
    case Crash(_) => true
    case RunEnds(outcome) =>
      s.g.run == Active && (outcome == Completed || outcome == Failed || outcome == Cancelled)
  }

  function Next(s: State, e: Event): State
    requires Enabled(s, e)
  {
    match e
    case Tick(ms) => s.(g := s.g.(clock := s.g.clock + ms))
    case Spawn(pid, host, pc) => s.(procs := s.procs[pid := Proc(host, pc)])
    case Step(pid, c) =>
      var p := s.procs[pid];
      var moved := Act(s.g, p.host, p.pc, c);
      State(moved.g, s.procs[pid := p.(pc := moved.pc)])
    case Crash(host) =>
      State(s.g.(inFlight := s.g.inFlight - {host}),
            map pid | pid in s.procs && s.procs[pid].host != host :: s.procs[pid])
    case RunEnds(outcome) => s.(g := s.g.(run := outcome))
  }

  predicate Legal(s: State, es: seq<Event>)
    decreases |es|
  {
    es == [] || (Enabled(s, es[0]) && Legal(Next(s, es[0]), es[1..]))
  }

  /** The state after a whole run. */
  function After(s: State, es: seq<Event>): State
    requires Legal(s, es)
    decreases |es|
  {
    if es == [] then s else After(Next(s, es[0]), es[1..])
  }
}
