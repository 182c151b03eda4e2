/** The start/stop serializer of the desktop's local stack: promise chaining plus tickets.

    Every call to `start` or `stop` that does not join an existing promise appends a task. A task
    waits for the promises it was chained to, runs its body (`compose up` or `compose stop`), ends,
    and settles once its `finally` callback has run. */
module LocalStack {
  import opened Wrappers

  datatype Phase = Waiting | Body | Ended | Settled

  datatype Kind = StartTask(ticket: nat) | StopTask

  /** `waits`: the promises chained to, oldest first. `failed`: the promise was rejected. */
  datatype Task = Task(kind: Kind, waits: seq<nat>, phase: Phase, failed: bool)

  /** The fields of the controller, every task ever created, and the bodies begun, in order. */
  datatype Stack = Stack(
    running: Option<nat>,
    stopping: Option<nat>,
    ticket: nat,
    voidBefore: nat,
    tasks: seq<Task>,
    bodies: seq<nat>)

  const IDLE := Stack(None, None, 0, 0, [], [])

  datatype Event = StartCall | StopCall | Begin(task: nat) | EndBody(task: nat, fails: bool) | Settle(task: nat)

  function AsSeq(o: Option<nat>): seq<nat> { if o.Some? then [o.value] else [] }

  predicate SettledIn(s: Stack, i: int) { 0 <= i < |s.tasks| && s.tasks[i].phase == Settled }

  predicate RejectedIn(s: Stack, i: int) { SettledIn(s, i) && s.tasks[i].failed }

  predicate Ready(s: Stack, i: nat) {
    i < |s.tasks| && s.tasks[i].phase == Waiting && forall w :: w in s.tasks[i].waits ==> SettledIn(s, w)
  }

  /** A start behind a rejected stop is rejected too; a superseded one resolves without a body. */
  predicate Skipped(s: Stack, i: nat)
    requires Ready(s, i)
  {
    && s.tasks[i].kind.StartTask?
    && (s.tasks[i].kind.ticket <= s.voidBefore || exists w :: w in s.tasks[i].waits && RejectedIn(s, w))
  }

  predicate Enabled(s: Stack, e: Event) {
    match e
    case StartCall => true
    case StopCall => true
    case Begin(i) => Ready(s, i)
    case EndBody(i, _) => i < |s.tasks| && s.tasks[i].phase == Body
    case Settle(i) => i < |s.tasks| && s.tasks[i].phase == Ended
  }

  function DoStart(s: Stack): Stack {
    if s.running.Some? then s
    else s.(ticket := s.ticket + 1, running := Some(|s.tasks|),
            tasks := s.tasks + [Task(StartTask(s.ticket + 1), AsSeq(s.stopping), Waiting, false)])
  }

  function DoStop(s: Stack): Stack {
    var voided := s.(voidBefore := s.ticket);
    if s.stopping.Some? && s.running.None? then voided
    else voided.(running := None, stopping := Some(|s.tasks|),
                 tasks := s.tasks + [Task(StopTask, AsSeq(s.stopping) + AsSeq(s.running), Waiting, false)])
  }

  /** The task whose promise the call returns. */
  function StartReturns(s: Stack): nat { if s.running.Some? then s.running.value else |s.tasks| }

  function StopReturns(s: Stack): nat {
    if s.stopping.Some? && s.running.None? then s.stopping.value else |s.tasks|
  }

  function DoBegin(s: Stack, i: nat): Stack
    requires Ready(s, i)
  {
    if Skipped(s, i) then
      s.(tasks := s.tasks[i := s.tasks[i].(phase := Ended,
          failed := exists w :: w in s.tasks[i].waits && RejectedIn(s, w))])
    else s.(tasks := s.tasks[i := s.tasks[i].(phase := Body)], bodies := s.bodies + [i])
  }

  function Next(s: Stack, e: Event): Stack
    requires Enabled(s, e)
  {
    match e
    case StartCall => DoStart(s)
    case StopCall => DoStop(s)
    case Begin(i) => DoBegin(s, i)
    case EndBody(i, fails) => s.(tasks := s.tasks[i := s.tasks[i].(phase := Ended, failed := fails)])
    case Settle(i) =>
      s.(tasks := s.tasks[i := s.tasks[i].(phase := Settled)],
         running := if s.running == Some(i) then None else s.running,
         stopping := if s.stopping == Some(i) then None else s.stopping)
  }

  predicate Legal(s: Stack, es: seq<Event>)
    decreases |es|
  {
    es == [] || (Enabled(s, es[0]) && Legal(Next(s, es[0]), es[1..]))
  }

  function After(s: Stack, es: seq<Event>): Stack
    requires Legal(s, es)
    decreases |es|
  {
    if es == [] then s else After(Next(s, es[0]), es[1..])
  }

  /** The controller itself. */
  class LocalStackController {
    var running: Option<nat>
    var stopping: Option<nat>
    var ticket: nat
    var voidBefore: nat
    var tasks: seq<Task>       // the promises made so far
    ghost var bodies: seq<nat>

    ghost function Value(): Stack
      reads this
    {
      Stack(running, stopping, ticket, voidBefore, tasks, bodies)
    }

    constructor ()
      ensures Value() == IDLE
    {
      running, stopping, ticket, voidBefore, tasks, bodies := None, None, 0, 0, [], [];
    }

    method Start() returns (promise: nat)
      modifies this
      ensures Value() == Next(old(Value()), StartCall) && promise == StartReturns(old(Value()))
    {
      if running.Some? { return running.value; }
      ticket := ticket + 1;
      promise := |tasks|;
      tasks := tasks + [Task(StartTask(ticket), AsSeq(stopping), Waiting, false)];
      running := Some(promise);
    }

    method Stop() returns (promise: nat)
      modifies this
      ensures Value() == Next(old(Value()), StopCall) && promise == StopReturns(old(Value()))
    {
      voidBefore := ticket;
      if stopping.Some? && running.None? { return stopping.value; }
      promise := |tasks|;
      var settled := AsSeq(stopping) + AsSeq(running);
      running := None;
      tasks := tasks + [Task(StopTask, settled, Waiting, false)];
      stopping := Some(promise);
    }

    /** The `then` callback: `ticket <= this.voidBefore ? this.current : this.run()`, or `runStop`. */
    method Resume(i: nat)
      requires Ready(Value(), i)
      modifies this`tasks, this`bodies
      ensures Value() == Next(old(Value()), Begin(i))
    {
      var rejected := exists w | w in tasks[i].waits :: w < |tasks| && tasks[w].phase == Settled && tasks[w].failed;
      if tasks[i].kind.StartTask? && (rejected || tasks[i].kind.ticket <= voidBefore) {
        tasks := tasks[i := tasks[i].(phase := Ended, failed := rejected)];
      } else {
        tasks := tasks[i := tasks[i].(phase := Body)];
        bodies := bodies + [i];
      }
    }

    method Finish(i: nat, fails: bool)
      requires i < |tasks| && tasks[i].phase == Body
      modifies this`tasks
      ensures Value() == Next(old(Value()), EndBody(i, fails))
    {
      tasks := tasks[i := tasks[i].(phase := Ended, failed := fails)];
    }

    /** The `finally` callback. */
    method Finally(i: nat)
      requires i < |tasks| && tasks[i].phase == Ended
      modifies this`tasks, this`running, this`stopping
      ensures Value() == Next(old(Value()), Settle(i))
    {
      tasks := tasks[i := tasks[i].(phase := Settled)];
      if running == Some(i) { running := None; }
      if stopping == Some(i) { stopping := None; }
    }
  }

  // ----- the invariant -----

  predicate Open(s: Stack, i: int) { 0 <= i < |s.tasks| && s.tasks[i].phase != Settled }

  /** A task is chained, directly, to the youngest task still open when it was made. */
  ghost predicate Chained(s: Stack, i: int, j: int) {
    && 0 <= j < |s.tasks|
    && var waits := s.tasks[j].waits;
    waits != [] && i <= waits[|waits| - 1] < j && Open(s, waits[|waits| - 1])
  }

  /** Open tasks form one chain. */
  ghost predicate ChainInv(s: Stack) {
    && (forall i, w :: 0 <= i < |s.tasks| && w in s.tasks[i].waits ==> w < i)
    && (forall i, j :: 0 <= i < j && Open(s, i) && Open(s, j) ==> Chained(s, i, j))
  }

  /** Nothing has begun before everything older has settled. */
  ghost predicate OrderInv(s: Stack) {
    forall i, j :: 0 <= i < j < |s.tasks| && s.tasks[j].phase != Waiting ==> s.tasks[i].phase == Settled
  }

  predicate IsStart(s: Stack, i: int) { 0 <= i < |s.tasks| && s.tasks[i].kind.StartTask? }

  /** The body of a start has begun, or the stop before it was rejected. */
  ghost predicate Served(s: Stack, i: int) {
    i in s.bodies || (0 <= i < |s.tasks| && exists w :: w in s.tasks[i].waits && RejectedIn(s, w))
  }

  /** `running` and `stopping` are the youngest open tasks, and `running` is not superseded. */
  ghost predicate FieldInv(s: Stack) {
    && s.voidBefore <= s.ticket
    && (forall i :: IsStart(s, i) ==> s.tasks[i].kind.ticket <= s.ticket)
    && (s.running.Some? ==>
          && Open(s, s.running.value) && IsStart(s, s.running.value)
          && s.tasks[s.running.value].kind.ticket > s.voidBefore
          && (s.tasks[s.running.value].phase != Waiting ==> Served(s, s.running.value))
          && forall i :: Open(s, i) ==> i <= s.running.value)
    && (s.stopping.Some? ==> Open(s, s.stopping.value) && !IsStart(s, s.stopping.value))
    && (forall i :: Open(s, i) ==> s.running == Some(i) || (s.stopping.Some? && i <= s.stopping.value))
  }

  /** Bodies begin in the order of their calls. */
  ghost predicate BodyInv(s: Stack) {
    && (forall p, q :: 0 <= p < q < |s.bodies| ==> s.bodies[p] < s.bodies[q])
    && (forall p :: 0 <= p < |s.bodies| ==> s.bodies[p] < |s.tasks| && s.tasks[s.bodies[p]].phase != Waiting)
    && (forall i :: 0 <= i < |s.tasks| && s.tasks[i].kind.StopTask? && s.tasks[i].phase != Waiting ==> i in s.bodies)
  }

  ghost predicate Inv(s: Stack) { ChainInv(s) && OrderInv(s) && FieldInv(s) && BodyInv(s) }

  /** A task that may begin has nothing older open. */
  lemma ReadyIsOldest(s: Stack, j: nat, i: nat)
    requires ChainInv(s) && i < j < |s.tasks|
    requires forall w :: w in s.tasks[j].waits ==> SettledIn(s, w)
    requires Open(s, j)
    ensures SettledIn(s, i)
  {
    var waits := s.tasks[j].waits;
    assert waits != [] ==> waits[|waits| - 1] in waits;
    assert Open(s, i) ==> Chained(s, i, j);
  }

  /** Only the phase of one task moves, and it stays open. */
  lemma ChainSurvivesPhase(s: Stack, t: Stack, k: nat)
    requires ChainInv(s) && k < |s.tasks| == |t.tasks|
    requires s.tasks[k].phase != Settled && t.tasks[k].phase != Settled && t.tasks[k].waits == s.tasks[k].waits
    requires forall i :: 0 <= i < |s.tasks| && i != k ==> t.tasks[i] == s.tasks[i]
    ensures ChainInv(t)
  {
    forall i, j | 0 <= i < j && Open(t, i) && Open(t, j) ensures Chained(t, i, j) {
      assert Open(s, i) && Open(s, j);
      assert Chained(s, i, j);
    }
  }

  lemma ChainSurvivesSettling(s: Stack, t: Stack, k: nat)
    requires ChainInv(s) && OrderInv(s) && k < |s.tasks| && s.tasks[k].phase == Ended
    requires t.tasks == s.tasks[k := s.tasks[k].(phase := Settled)]
    ensures ChainInv(t)
  {
    forall i, j | 0 <= i < j && Open(t, i) && Open(t, j) ensures Chained(t, i, j) {
      assert Open(s, i) && Open(s, j);
      assert Chained(s, i, j);
    }
  }

  lemma ChainDependsOnTasks(s: Stack, t: Stack)
    requires ChainInv(s) && t.tasks == s.tasks
    ensures ChainInv(t)
  {
    forall i, j | 0 <= i < j && Open(t, i) && Open(t, j) ensures Chained(t, i, j) {
      assert Open(s, i) && Open(s, j);
      assert Chained(s, i, j);
    }
  }

  /** A new task chained to the youngest open one. */
  lemma ChainGrows(s: Stack, t: Stack, task: Task)
    requires ChainInv(s) && t.tasks == s.tasks + [task]
    requires forall w :: w in task.waits ==> w < |s.tasks|
    requires forall i :: Open(s, i) ==>
               task.waits != [] && Open(s, task.waits[|task.waits| - 1]) && i <= task.waits[|task.waits| - 1]
    ensures ChainInv(t)
  {
    forall i, j | 0 <= i < j && Open(t, i) && Open(t, j) ensures Chained(t, i, j) {
      assert Open(s, i);
      if j < |s.tasks| {
        assert Open(s, j);
        assert Chained(s, i, j);
      }
    }
  }

  lemma BeginKeeps(s: Stack, k: nat)
    requires Inv(s) && Ready(s, k)
    ensures Inv(DoBegin(s, k))
  {
    ChainSurvivesPhase(s, DoBegin(s, k), k);
    BeginKeepsOrder(s, k);
    BeginKeepsFields(s, k);
    BeginKeepsBodies(s, k);
  }

  lemma BeginKeepsOrder(s: Stack, k: nat)
    requires ChainInv(s) && OrderInv(s) && Ready(s, k)
    ensures OrderInv(DoBegin(s, k))
  {
    var t := DoBegin(s, k);
    forall i, j | 0 <= i < j < |t.tasks| && t.tasks[j].phase != Waiting ensures t.tasks[i].phase == Settled {
      if j == k { ReadyIsOldest(s, k, i); }
    }
  }

  lemma BeginKeepsFields(s: Stack, k: nat)
    requires FieldInv(s) && Ready(s, k)
    ensures FieldInv(DoBegin(s, k))
  {
    var t := DoBegin(s, k);
    assert forall i :: Open(t, i) <==> Open(s, i);
    assert forall w :: RejectedIn(s, w) ==> RejectedIn(t, w);
    if s.running.Some? { BeginServes(s, k, s.running.value); }
  }

  /** The start that is not voided is served once it has begun. */
  lemma BeginServes(s: Stack, k: nat, i: nat)
    requires Ready(s, k) && IsStart(s, i) && s.tasks[i].kind.ticket > s.voidBefore
    requires s.tasks[i].phase != Waiting ==> Served(s, i)
    ensures DoBegin(s, k).tasks[i].phase != Waiting ==> Served(DoBegin(s, k), i)
  {
    var t := DoBegin(s, k);
    assert forall w :: RejectedIn(s, w) ==> RejectedIn(t, w);
    assert t.tasks[i].waits == s.tasks[i].waits;
    assert t.bodies == s.bodies || t.bodies[|s.bodies|] == k;
  }

  lemma BeginKeepsBodies(s: Stack, k: nat)
    requires OrderInv(s) && BodyInv(s) && Ready(s, k)
    ensures BodyInv(DoBegin(s, k))
  {
    forall p | 0 <= p < |s.bodies| ensures s.bodies[p] < k {
      assert s.tasks[s.bodies[p]].phase != Waiting;
    }
  }

  lemma StartKeeps(s: Stack)
    requires Inv(s)
    ensures Inv(DoStart(s))
  {
    var t := DoStart(s);
    if s.running.None? {
      ChainGrows(s, t, t.tasks[|s.tasks|]);
      assert forall i :: Open(t, i) && i != |s.tasks| ==> Open(s, i);
    }
  }

  lemma StopKeeps(s: Stack)
    requires Inv(s)
    ensures Inv(DoStop(s))
  {
    var t := DoStop(s);
    if t.tasks == s.tasks { ChainDependsOnTasks(s, t); }
    if !(s.stopping.Some? && s.running.None?) {
      ChainGrows(s, t, t.tasks[|s.tasks|]);
      assert forall i :: Open(t, i) && i != |s.tasks| ==> Open(s, i);
    }
  }

  lemma EndKeeps(s: Stack, k: nat, fails: bool)
    requires Inv(s) && Enabled(s, EndBody(k, fails))
    ensures Inv(Next(s, EndBody(k, fails)))
  {
    var t := Next(s, EndBody(k, fails));
    ChainSurvivesPhase(s, t, k);
    assert forall i :: Open(t, i) ==> Open(s, i);
    assert forall w :: RejectedIn(s, w) ==> RejectedIn(t, w);
  }

  lemma SettleKeeps(s: Stack, k: nat)
    requires Inv(s) && Enabled(s, Settle(k))
    ensures Inv(Next(s, Settle(k)))
  {
    var t := Next(s, Settle(k));
    ChainSurvivesSettling(s, t, k);
    assert forall i :: Open(t, i) ==> Open(s, i) && i != k;
    assert forall w :: RejectedIn(s, w) ==> RejectedIn(t, w);
  }

  lemma NextKeeps(s: Stack, e: Event)
    requires Inv(s) && Enabled(s, e)
    ensures Inv(Next(s, e))
  {
    match e
    case StartCall => StartKeeps(s);
    case StopCall => StopKeeps(s);
    case Begin(i) => BeginKeeps(s, i);
    case EndBody(i, fails) => EndKeeps(s, i, fails);
    case Settle(i) => SettleKeeps(s, i);
  }

  /** What later events leave alone. */
  ghost predicate Extends(s: Stack, t: Stack) {
    && |s.tasks| <= |t.tasks| && s.bodies <= t.bodies && s.voidBefore <= t.voidBefore
    && (forall i :: 0 <= i < |s.tasks| ==> t.tasks[i].kind == s.tasks[i].kind && t.tasks[i].waits == s.tasks[i].waits)
    && (forall i :: SettledIn(s, i) ==> t.tasks[i] == s.tasks[i])
  }

  lemma NextExtends(s: Stack, e: Event)
    requires Enabled(s, e) && s.voidBefore <= s.ticket
    ensures Extends(s, Next(s, e))
  {}

  lemma ExtendsTransitive(r: Stack, s: Stack, t: Stack)
    requires Extends(r, s) && Extends(s, t)
    ensures Extends(r, t)
  {}

  lemma {:induction false} RunKeeps(s: Stack, es: seq<Event>)
    requires Inv(s) && Legal(s, es)
    ensures Inv(After(s, es)) && Extends(s, After(s, es))
    decreases |es|
  {
    if es != [] {
      var s' := Next(s, es[0]);
      NextKeeps(s, es[0]);
      RunKeeps(s', es[1..]);
      NextExtends(s, es[0]);
      ExtendsTransitive(s, s', After(s, es));
    }
  }

  // ----- theorems -----

  ghost predicate Reachable(s: Stack) { exists es :: Legal(IDLE, es) && After(IDLE, es) == s }

  lemma ReachableInv(s: Stack)
    requires Reachable(s)
    ensures Inv(s)
  {
    var es :| Legal(IDLE, es) && After(IDLE, es) == s;
    RunKeeps(IDLE, es);
  }

  /** At most one start or stop body runs at a time, and bodies run in the order of their calls. */
  lemma BodiesNeverOverlap(s: Stack, i: nat, j: nat)
    requires Reachable(s)
    ensures i < |s.tasks| && j < |s.tasks| && s.tasks[i].phase == Body && s.tasks[j].phase == Body ==> i == j
    ensures i < j < |s.bodies| ==> s.bodies[i] < s.bodies[j]
  {
    ReachableInv(s);
  }

  predicate CanMove(s: Stack, k: int) {
    k >= 0 && Open(s, k) && (Ready(s, k) || s.tasks[k].phase == Body || s.tasks[k].phase == Ended)
  }

  /** Nothing deadlocks: while anything is open, some task can move. */
  lemma NeverStuck(s: Stack, i: nat)
    requires Reachable(s) && Open(s, i)
    ensures exists k :: 0 <= k <= i && CanMove(s, k)
  {
    ReachableInv(s);
    OldestCanMove(s, i);
  }

  lemma {:induction false} OldestCanMove(s: Stack, i: nat)
    requires Inv(s) && Open(s, i)
    ensures exists k :: 0 <= k <= i && CanMove(s, k)
    decreases i
  {
    if k: nat :| k < i && Open(s, k) {
      OldestCanMove(s, k);
    } else {
      forall w | w in s.tasks[i].waits ensures SettledIn(s, w) { assert !Open(s, w); }
      assert CanMove(s, i);
    }
  }

  /** After a stop call, whatever follows: a start requested before it that had not begun never
      runs a body. */
  lemma {:induction false} OldStartsAreVoid(s: Stack, es: seq<Event>, i: nat)
    requires Inv(s) && Legal(s, es) && i < |s.tasks| && i !in s.bodies
    requires s.tasks[i].kind.StartTask? && s.tasks[i].kind.ticket <= s.voidBefore
    ensures i !in After(s, es).bodies
    decreases |es|
  {
    if es != [] {
      NextKeeps(s, es[0]);
      OldStartsAreVoid(Next(s, es[0]), es[1..], i);
    }
  }

  /** Latest intent, stop: no start requested before a stop call runs its body after the body of the
      stop that call returned, and one that had not begun by then never runs at all. */
  lemma StopOutlivesEarlierStarts(s: Stack, es: seq<Event>, i: nat, p: nat, q: nat)
    requires Reachable(s) && Legal(DoStop(s), es) && i < |s.tasks| && s.tasks[i].kind.StartTask?
    ensures var t := After(DoStop(s), es);
            && (i !in s.bodies ==> i !in t.bodies)
            && (p < q < |t.bodies| && t.bodies[p] == StopReturns(s) ==> t.bodies[q] != i)
  {
    ReachableInv(s);
    StopKeeps(s);
    RunKeeps(DoStop(s), es);
    if i !in s.bodies { OldStartsAreVoid(DoStop(s), es, i); }
    var k := StopReturns(s);
    if k < |s.tasks| && i > k {
      // A younger start would still be open, hence running.
      assert SettledIn(s, i) || Open(s, i);
    }
  }

  predicate NoStop(es: seq<Event>) { StopCall !in es }

  /** Latest intent, start: a start returned after the last stop call is never voided: once it has
      left the queue its body has begun, unless the stop it waited for was rejected. */
  lemma LatestStartIsHonoured(s: Stack, es: seq<Event>)
    requires Reachable(s) && Legal(DoStart(s), es) && NoStop(es)
    ensures var t := After(DoStart(s), es);
            var i := StartReturns(s);
            && IsStart(t, i) && t.tasks[i].kind.ticket > t.voidBefore
            && (t.tasks[i].phase != Waiting ==> Served(t, i))
  {
    ReachableInv(s);
    StartKeeps(s);
    StartIsServed(DoStart(s), es, StartReturns(s));
  }

  /** How a start that is not voided fares until the next stop call. */
  ghost predicate Honoured(s: Stack, i: nat) {
    IsStart(s, i) && s.tasks[i].kind.ticket > s.voidBefore && (s.tasks[i].phase != Waiting ==> Served(s, i))
  }

  lemma {:induction false} StartIsServed(s: Stack, es: seq<Event>, i: nat)
    requires Inv(s) && Legal(s, es) && NoStop(es) && Honoured(s, i)
    ensures Honoured(After(s, es), i)
    decreases |es|
  {
    if es != [] {
      NextKeeps(s, es[0]);
      assert es[0] != StopCall;
      HonouredStays(s, es[0], i);
      StartIsServed(Next(s, es[0]), es[1..], i);
    }
  }

  lemma HonouredStays(s: Stack, e: Event, i: nat)
    requires Enabled(s, e) && e != StopCall && Honoured(s, i)
    ensures Honoured(Next(s, e), i)
  {
    var t := Next(s, e);
    assert forall w :: RejectedIn(s, w) ==> RejectedIn(t, w);
    if e.Begin? { BeginServes(s, e.task, i); }
  }

  predicate NoCalls(es: seq<Event>) { StartCall !in es && StopCall !in es }

  lemma {:induction false} NoCallsNoTasks(s: Stack, es: seq<Event>)
    requires Legal(s, es) && NoCalls(es)
    ensures |After(s, es).tasks| == |s.tasks|
    decreases |es|
  {
    if es != [] {
      assert es[0] != StartCall && es[0] != StopCall;
      NoCallsNoTasks(Next(s, es[0]), es[1..]);
    }
  }

  /** When everything has settled after a last call to stop, the last body that ran was the stop. */
  lemma StopHasTheLastWord(s: Stack, es: seq<Event>)
    requires Reachable(s) && Legal(DoStop(s), es) && NoCalls(es)
    requires forall i :: 0 <= i < |After(DoStop(s), es).tasks| ==> SettledIn(After(DoStop(s), es), i)
    ensures var t := After(DoStop(s), es);
            t.bodies != [] && t.bodies[|t.bodies| - 1] == StopReturns(s)
  {
    var t := After(DoStop(s), es);
    ReachableInv(s);
    StopKeeps(s);
    RunKeeps(DoStop(s), es);
    NoCallsNoTasks(DoStop(s), es);
    var k := StopReturns(s);
    assert k + 1 < |s.tasks| ==> SettledIn(s, k + 1) || Open(s, k + 1);
    assert k == |t.tasks| - 1 && SettledIn(t, k);
    var p :| 0 <= p < |t.bodies| && t.bodies[p] == k;
  }

  // ----- outcomes -----

  /** A stop has failed exactly if its body ended so, and starts wait for stops only. */
  ghost predicate OutcomeInv(s: Stack, past: seq<Event>) {
    forall k | 0 <= k < |s.tasks| ::
      && (s.tasks[k].kind.StopTask? && s.tasks[k].phase in {Waiting, Body} ==>
            !s.tasks[k].failed && EndBody(k, true) !in past)
      && (s.tasks[k].kind.StopTask? && s.tasks[k].phase in {Ended, Settled} ==>
            (s.tasks[k].failed <==> EndBody(k, true) in past))
      && (s.tasks[k].kind.StartTask? ==>
            forall w :: w in s.tasks[k].waits ==> 0 <= w < |s.tasks| && s.tasks[w].kind.StopTask?)
  }

  /** Bodies end only in tasks that exist. */
  ghost predicate PastInv(s: Stack, past: seq<Event>) {
    forall k: nat, fails :: EndBody(k, fails) in past ==> k < |s.tasks|
  }

  lemma OutcomeNext(s: Stack, e: Event, past: seq<Event>)
    requires Inv(s) && OutcomeInv(s, past) && PastInv(s, past) && Enabled(s, e)
    ensures OutcomeInv(Next(s, e), past + [e]) && PastInv(Next(s, e), past + [e])
  {
    assert forall x :: x in past + [e] <==> x in past || x == e;
    match e
    case StartCall => OutcomeStart(s, past);
    case StopCall => OutcomeStop(s, past);
    case _ =>
  }

  lemma OutcomeStart(s: Stack, past: seq<Event>)
    requires Inv(s) && OutcomeInv(s, past) && PastInv(s, past)
    ensures OutcomeInv(DoStart(s), past + [StartCall]) && PastInv(DoStart(s), past + [StartCall])
  {
    assert forall x :: x in past + [StartCall] <==> x in past || x == StartCall;
  }

  lemma OutcomeStop(s: Stack, past: seq<Event>)
    requires Inv(s) && OutcomeInv(s, past) && PastInv(s, past)
    ensures OutcomeInv(DoStop(s), past + [StopCall]) && PastInv(DoStop(s), past + [StopCall])
  {
    assert forall x :: x in past + [StopCall] <==> x in past || x == StopCall;
  }

  lemma {:induction false} OutcomeRun(s: Stack, es: seq<Event>, past: seq<Event>)
    requires Inv(s) && OutcomeInv(s, past) && PastInv(s, past) && Legal(s, es)
    ensures OutcomeInv(After(s, es), past + es)
    decreases |es|
  {
    if es == [] {
      assert past + es == past;
    } else {
      NextKeeps(s, es[0]);
      OutcomeNext(s, es[0], past);
      OutcomeRun(Next(s, es[0]), es[1..], past + [es[0]]);
      assert past + [es[0]] + es[1..] == past + es;
    }
  }

  /** The start that a last call returns, behind stops whose bodies did not fail: once it leaves the
      queue its own body has begun. */
  lemma StartRunsBehindAGoodStop(es: seq<Event>, more: seq<Event>)
    requires Legal(IDLE, es) && Legal(DoStart(After(IDLE, es)), more) && NoStop(more)
    ensures var s := After(IDLE, es);
            var t, i := After(DoStart(s), more), StartReturns(s);
            && i < |t.tasks|
            && ((forall w :: w in t.tasks[i].waits ==> EndBody(w, true) !in es && EndBody(w, true) !in more) ==>
                  t.tasks[i].phase != Waiting ==> i in t.bodies)
  {
    var s := After(IDLE, es);
    LatestStartIsHonoured(s, more);
    OutcomesOfARun(es, more);
    var t, i := After(DoStart(s), more), StartReturns(s);
    if Served(t, i) && i !in t.bodies {
      var w :| w in t.tasks[i].waits && RejectedIn(t, w);
      assert t.tasks[w].kind.StopTask?;
    }
  }

  lemma OutcomesOfARun(es: seq<Event>, more: seq<Event>)
    requires Legal(IDLE, es) && Legal(DoStart(After(IDLE, es)), more)
    ensures OutcomeInv(After(DoStart(After(IDLE, es)), more), es + [StartCall] + more)
  {
    var s := After(IDLE, es);
    RunKeeps(IDLE, es);
    OutcomeRun(IDLE, es, []);
    EndedTasksExist(IDLE, es, []);
    assert [] + es == es;
    OutcomeNext(s, StartCall, es);
    StartKeeps(s);
    OutcomeRun(DoStart(s), more, es + [StartCall]);
  }

  lemma {:induction false} EndedTasksExist(s: Stack, es: seq<Event>, past: seq<Event>)
    requires Inv(s) && PastInv(s, past) && Legal(s, es)
    ensures PastInv(After(s, es), past + es)
    decreases |es|
  {
    if es == [] {
      assert past + es == past;
    } else {
      NextKeeps(s, es[0]);
      assert PastInv(Next(s, es[0]), past + [es[0]]);
      EndedTasksExist(Next(s, es[0]), es[1..], past + [es[0]]);
      assert past + [es[0]] + es[1..] == past + es;
    }
  }
}
