/** Ambient evaluation said declaratively: which observed messages are considered, whom a decision is
    about, and what becomes of every row of a conversation. */
module TeamChatEngagement {
  import opened Wrappers
  import opened TeamChatRows
  import opened TeamChatAmbient

  // ----- the rules -----

  function ModeOf(policy: Policy, sender: nat): Option<Mode> {
    if sender in policy.senders then Some(policy.senders[sender].mode) else None
  }

  /** People are heard, and automated senders in any mode but ignore. */
  predicate Heard(policy: Policy, m: Message) {
    m.senderIsBot ==> ModeOf(policy, m.senderId) in {Some(RollupMode), Some(ActionMode), Some(UserMode)}
  }

  /** Heard at once, not in a roll-up. */
  predicate HeardAtOnce(policy: Policy, m: Message) {
    m.senderIsBot ==> ModeOf(policy, m.senderId) in {Some(ActionMode), Some(UserMode)}
  }

  /** The sender has a roll-up period, and was not judged within it. */
  predicate Overdue(policy: Policy, now: nat, sender: nat) {
    && sender in policy.senders && policy.senders[sender].rollupHours.Some?
    && var period := policy.senders[sender].rollupHours.value * 3_600_000;
    && period > 0
    && (sender in policy.lastJudged ==> now >= policy.lastJudged[sender] + period)
  }

  predicate Acting(policy: Policy, m: Message) { m.senderIsBot && ModeOf(policy, m.senderId) == Some(ActionMode) }

  predicate SomebodyAtOnce(policy: Policy, batch: seq<Message>) { exists n :: n in batch && HeardAtOnce(policy, n) }

  /** With anybody to be heard at once everybody heard is considered, and otherwise those overdue. */
  function Considered(policy: Policy, batch: seq<Message>, now: nat): seq<Message> {
    Filter(batch, m => Heard(policy, m) && (SomebodyAtOnce(policy, batch) || Overdue(policy, now, m.senderId)))
  }

  function LastTwenty(xs: seq<Message>): (ys: seq<Message>)
    ensures |ys| == if |xs| < 20 then |xs| else 20
    ensures forall k :: 0 <= k < |ys| ==> ys[k] == xs[|xs| - |ys| + k]
  {
    if |xs| <= 20 then xs else xs[|xs| - 20..]
  }

  /** Whom the decision is about: the last of the acting senders; without one, the first message the
      judge names; and if it names none, the latest. */
  predicate IsTrigger(policy: Policy, judged: seq<Message>, k: nat) {
    && k < |judged|
    && if exists i :: 0 <= i < |judged| && Acting(policy, judged[i]) then
         Acting(policy, judged[k]) && forall i :: k < i < |judged| ==> !Acting(policy, judged[i])
       else if exists i :: 0 <= i < |judged| && Some(judged[i].eventId) == policy.judge.askedByEventId then
         && Some(judged[k].eventId) == policy.judge.askedByEventId
         && forall i :: 0 <= i < k ==> Some(judged[i].eventId) != policy.judge.askedByEventId
       else k == |judged| - 1
  }

  /** An acting sender decides by itself; otherwise the judge does. */
  predicate DecidesToAct(policy: Policy, judged: seq<Message>) {
    (exists i :: 0 <= i < |judged| && Acting(policy, judged[i])) || policy.judge.act
  }

  function ReasonOf(policy: Policy, judged: seq<Message>): Option<string> {
    if exists i :: 0 <= i < |judged| && Acting(policy, judged[i]) then Some("configured as actionable")
    else policy.judge.reason
  }

  function Names(messages: seq<Message>): (ids: seq<nat>)
    ensures |ids| == |messages| && forall k :: 0 <= k < |ids| ==> ids[k] == messages[k].id
  {
    seq(|messages|, k requires 0 <= k < |messages| => messages[k].id)
  }

  function IgnoredRow(row: AmbientRow, now: nat): AmbientRow { row.(status := Ignored, judgedAt := Some(now)) }

  /** What becomes of the row of `m`, when the latest considered message is `debounce` old and the
      decision is about `trigger`. */
  predicate Obeys(policy: Policy, considered: seq<Message>, judged: seq<Message>, trigger: Message, m: Message,
                  before: AmbientRow, after: AmbientRow, taken: set<nat>, now: nat) {
    if !Heard(policy, m) then after == IgnoredRow(before, now)
    else if m.id in taken then after == before.(status := Deferred)
    else if m !in considered then after == before
    else if !DecidesToAct(policy, judged) then after == IgnoredRow(before, now)
    else if trigger.id in taken then after == before
    else if m == trigger then after == AmbientRow(Received, Some(now), ReasonOf(policy, judged), Names(judged))
    else after == IgnoredRow(before, now)
  }

  /** What a pass makes of one conversation. */
  ghost predicate FollowsTheRules(policy: Policy, batch: seq<Message>, before: Rows, after: Rows, taken: set<nat>,
                                  now: nat, debounce: nat)
    requires Ids(batch) <= before.Keys == after.Keys
  {
    var considered := Considered(policy, batch, now);
    var judged := LastTwenty(considered);
    if !policy.enabled then forall m :: m in batch ==> after[m.id] == IgnoredRow(before[m.id], now)
    else if considered == [] || considered[|considered| - 1].createdAt + debounce > now then
      forall m :: m in batch ==>
        after[m.id] == if Heard(policy, m) then before[m.id] else IgnoredRow(before[m.id], now)
    else
      exists k: nat :: IsTrigger(policy, judged, k)
        && forall m :: m in batch ==>
             Obeys(policy, considered, judged, judged[k], m, before[m.id], after[m.id], taken, now)
  }

  // ----- filtering -----

  /** Filtering keeps an element or drops it, and treats every part of a list alike. */
  lemma {:induction false} FilterParts(xs: seq<Message>, ys: seq<Message>, keep: Message -> bool)
    ensures Filter(xs + ys, keep) == Filter(xs, keep) + Filter(ys, keep)
    ensures forall x :: Filter([x], keep) == if keep(x) then [x] else []
  {
    if xs == [] {
      assert xs + ys == ys;
    } else {
      assert (xs + ys)[1..] == xs[1..] + ys;
      FilterParts(xs[1..], ys, keep);
    }
  }

  lemma {:induction false} FilterSame(xs: seq<Message>, f: Message -> bool, g: Message -> bool)
    requires forall x :: x in xs ==> f(x) == g(x)
    ensures Filter(xs, f) == Filter(xs, g)
  {
    if xs != [] { FilterSame(xs[1..], f, g); }
  }

  lemma {:induction false} FilterTwice(xs: seq<Message>, f: Message -> bool, g: Message -> bool)
    ensures Filter(Filter(xs, f), g) == Filter(xs, x => f(x) && g(x))
  {
    if xs != [] {
      FilterTwice(xs[1..], f, g);
      if f(xs[0]) { assert ([xs[0]] + Filter(xs[1..], f))[1..] == Filter(xs[1..], f); }
    }
  }

  // ----- why the evaluation follows the rules -----

  lemma ModesAgree(policy: Policy, m: Message, now: nat)
    ensures SenderIgnored(policy, m) == !Heard(policy, m)
    ensures Heard(policy, m) ==> (Immediate(policy, m) <==> HeardAtOnce(policy, m))
    ensures HeardAtOnce(policy, m) ==> Heard(policy, m)
    ensures RollupDue(policy, now, m) <==> Overdue(policy, now, m.senderId)
  {
    if m.senderId in policy.senders {
      var mode := policy.senders[m.senderId].mode;
      assert mode == IgnoreMode || mode == RollupMode || mode == ActionMode || mode == UserMode;
    }
  }

  lemma EvaluatedIsConsidered(policy: Policy, batch: seq<Message>, now: nat)
    ensures Evaluated(policy, batch, now) == Considered(policy, batch, now)
  {
    forall m ensures SenderIgnored(policy, m) == !Heard(policy, m) { ModesAgree(policy, m, now); }
    var heard := (m: Message) => !SenderIgnored(policy, m);
    var due := (m: Message) => RollupDue(policy, now, m);
    var candidates := Candidates(policy, batch);
    SomebodyIsImmediate(policy, batch, now);
    if SomebodyAtOnce(policy, batch) {
      FilterSame(batch, heard,
                 m => Heard(policy, m) && (SomebodyAtOnce(policy, batch) || Overdue(policy, now, m.senderId)));
    } else {
      forall m ensures due(m) == Overdue(policy, now, m.senderId) { ModesAgree(policy, m, now); }
      FilterTwice(batch, heard, due);
      FilterSame(batch, m => heard(m) && due(m),
                 m => Heard(policy, m) && (SomebodyAtOnce(policy, batch) || Overdue(policy, now, m.senderId)));
    }
  }

  lemma SomebodyIsImmediate(policy: Policy, batch: seq<Message>, now: nat)
    ensures (exists m :: m in Candidates(policy, batch) && Immediate(policy, m)) <==> SomebodyAtOnce(policy, batch)
  {
    forall m
      ensures m in Candidates(policy, batch) && Immediate(policy, m) <==> m in batch && HeardAtOnce(policy, m)
    {
      ModesAgree(policy, m, now);
    }
  }

  /** The unique key of external messages: no two messages of a conversation are the same event. */
  predicate DistinctEvents(xs: seq<Message>) {
    forall i, j :: 0 <= i < j < |xs| ==> xs[i].eventId != xs[j].eventId
  }

  lemma {:induction false} FilterDistinct(xs: seq<Message>, keep: Message -> bool)
    requires DistinctEvents(xs)
    ensures DistinctEvents(Filter(xs, keep))
  {
    if xs != [] {
      var rest := Filter(xs[1..], keep);
      FilterDistinct(xs[1..], keep);
      forall j | 0 <= j < |rest| ensures rest[j].eventId != xs[0].eventId {
        assert rest[j] in rest;
        var i :| 0 <= i < |xs[1..]| && xs[1..][i] == rest[j];
        assert xs[i + 1] == rest[j];
      }
    }
  }

  lemma {:induction false} FirstFound(xs: seq<Message>, good: Message -> bool) returns (k: nat)
    requires FindFirst(xs, good).Some?
    ensures k < |xs| && xs[k] == FindFirst(xs, good).value && good(xs[k])
    ensures forall i :: 0 <= i < k ==> !good(xs[i])
  {
    if good(xs[0]) {
      k := 0;
    } else {
      var rest := FirstFound(xs[1..], good);
      k := rest + 1;
      assert forall i :: 1 <= i < |xs| ==> xs[i] == xs[1..][i - 1];
    }
  }

  lemma {:induction false} LastFound(xs: seq<Message>, good: Message -> bool) returns (k: nat)
    requires FindLast(xs, good).Some?
    ensures k < |xs| && xs[k] == FindLast(xs, good).value && good(xs[k])
    ensures forall i :: k < i < |xs| ==> !good(xs[i])
  {
    k := |xs| - 1;
    if !good(xs[k]) { k := LastFound(xs[..k], good); }
  }

  lemma ActionableIsLastActing(policy: Policy, judged: seq<Message>) returns (k: nat)
    ensures Actionable(policy, judged).Some? <==> exists i :: 0 <= i < |judged| && Acting(policy, judged[i])
    ensures Actionable(policy, judged).Some? ==>
              && k < |judged| && judged[k] == Actionable(policy, judged).value && Acting(policy, judged[k])
              && forall i :: k < i < |judged| ==> !Acting(policy, judged[i])
  {
    var good := (m: Message) =>
      m.senderIsBot && m.senderId in policy.senders && policy.senders[m.senderId].mode == ActionMode;
    assert forall m :: good(m) <==> Acting(policy, m);
    k := 0;
    if Actionable(policy, judged).Some? {
      k := LastFound(judged, good);
    } else {
      forall i | 0 <= i < |judged| ensures !Acting(policy, judged[i]) { assert judged[i] in judged; }
    }
  }

  /** The message the original picks is the one the rules name. */
  lemma TriggerIsTheTrigger(policy: Policy, judged: seq<Message>) returns (k: nat)
    requires judged != [] && DistinctEvents(judged)
    ensures k < |judged| && IsTrigger(policy, judged, k) && TriggerOf(judged, Decide(policy, judged)) == judged[k]
    ensures Decide(policy, judged).act == DecidesToAct(policy, judged)
    ensures Decide(policy, judged).reason == ReasonOf(policy, judged)
  {
    var decision := Decide(policy, judged);
    var asked := (m: Message) => decision.askedByEventId == Some(m.eventId);
    var a := ActionableIsLastActing(policy, judged);
    k := |judged| - 1;
    if FindFirst(judged, asked).Some? {
      k := FirstFound(judged, asked);
      if Actionable(policy, judged).Some? { assert k == a; }
    } else {
      forall i | 0 <= i < |judged| ensures !asked(judged[i]) { assert judged[i] in judged; }
    }
  }

  lemma EvaluationFollowsTheRules(policy: Policy, batch: seq<Message>, before: Rows, after: Rows, taken: set<nat>,
                                  now: nat, debounce: nat)
    requires Ids(batch) <= before.Keys == after.Keys && UniqueIds(batch) && DistinctEvents(batch)
    requires forall m :: m in batch ==>
               after[m.id] == Evaluation(policy, batch, before[m.id], m.id, now, debounce, taken)
    ensures FollowsTheRules(policy, batch, before, after, taken, now, debounce)
  {
    var considered := Considered(policy, batch, now);
    EvaluatedIsConsidered(policy, batch, now);
    forall m ensures SenderIgnored(policy, m) == !Heard(policy, m) { ModesAgree(policy, m, now); }
    if policy.enabled && considered != [] && considered[|considered| - 1].createdAt + debounce <= now {
      VerdictObeys(policy, batch, before, after, taken, now, debounce);
    }
  }

  lemma VerdictObeys(policy: Policy, batch: seq<Message>, before: Rows, after: Rows, taken: set<nat>, now: nat,
                     debounce: nat)
    requires Ids(batch) <= before.Keys == after.Keys && UniqueIds(batch) && DistinctEvents(batch) && policy.enabled
    requires var considered := Considered(policy, batch, now);
             considered != [] && considered[|considered| - 1].createdAt + debounce <= now
    requires forall m :: m in batch ==>
               after[m.id] == Evaluation(policy, batch, before[m.id], m.id, now, debounce, taken)
    ensures FollowsTheRules(policy, batch, before, after, taken, now, debounce)
  {
    var considered := Considered(policy, batch, now);
    var judged := LastTwenty(considered);
    EvaluatedIsConsidered(policy, batch, now);
    FilterDistinct(batch, m => Heard(policy, m) && (SomebodyAtOnce(policy, batch) || Overdue(policy, now, m.senderId)));
    assert judged == Suffix(Evaluated(policy, batch, now), AMBIENT_CONTEXT_MESSAGES);
    var k := TriggerIsTheTrigger(policy, judged);
    var v := VerdictOf(policy, batch, now, taken);
    assert v.context == Names(judged) && v.trigger == judged[k].id;
    forall m | m in batch
      ensures Obeys(policy, considered, judged, judged[k], m, before[m.id], after[m.id], taken, now)
    {
      ModesAgree(policy, m, now);
      assert m.id in v.evaluated <==> m in considered;
      assert judged[k] in judged && judged[k] in considered;
    }
  }
}
