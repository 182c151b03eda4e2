/** What `evaluateAmbient` computes: observed channel messages are grouped by conversation, judged once
    per conversation, and at most one of them is promoted to a request.

    The judge's answer is arbitrary. `taken` are the rows another process moves away from observed
    while the judge is deciding. */
module TeamChatAmbient {
  import opened Wrappers
  import opened TeamChatRows

  const AMBIENT_BATCH_SIZE: nat := 100
  const AMBIENT_CONTEXT_MESSAGES: nat := 20
  const MS_PER_HOUR: nat := 3_600_000

  datatype Mode = IgnoreMode | RollupMode | ActionMode | UserMode
  datatype SenderPolicy = SenderPolicy(mode: Mode, rollupHours: Option<nat>)

  datatype Message = Message(id: nat, eventId: nat, conversation: nat, senderId: nat, senderIsBot: bool, createdAt: nat)

  /** The part of a row the evaluation reads or writes. `context`: the ids in its batch context. */
  datatype AmbientRow = AmbientRow(status: Status, judgedAt: Option<nat>, reason: Option<string>, context: seq<nat>)

  datatype Decision = Decision(act: bool, reason: Option<string>, askedByEventId: Option<nat>)

  /** A conversation's settings, its last judged times per automated sender, and its judge. */
  datatype Policy = Policy(
    enabled: bool,
    senders: map<nat, SenderPolicy>,
    lastJudged: map<nat, nat>,
    judge: Decision)

  function Filter(xs: seq<Message>, keep: Message -> bool): (ys: seq<Message>)
    ensures forall x :: x in ys <==> x in xs && keep(x)
  {
    if xs == [] then []
    else if keep(xs[0]) then [xs[0]] + Filter(xs[1..], keep)
    else Filter(xs[1..], keep)
  }

  function FindFirst(xs: seq<Message>, good: Message -> bool): (r: Option<Message>)
    ensures r.Some? ==> r.value in xs && good(r.value)
    ensures r.None? ==> forall x :: x in xs ==> !good(x)
  {
    if xs == [] then None else if good(xs[0]) then Some(xs[0]) else FindFirst(xs[1..], good)
  }

  function FindLast(xs: seq<Message>, good: Message -> bool): (r: Option<Message>)
    ensures r.Some? ==> r.value in xs && good(r.value)
    ensures r.None? ==> forall x :: x in xs ==> !good(x)
  {
    if xs == [] then None else if good(xs[|xs| - 1]) then Some(xs[|xs| - 1]) else FindLast(xs[..|xs| - 1], good)
  }

  function Suffix(xs: seq<Message>, n: nat): (ys: seq<Message>)
    ensures |ys| <= n && (n > 0 && xs != [] ==> ys != [])
    ensures forall y :: y in ys ==> y in xs
  {
    if |xs| <= n then xs else xs[|xs| - n..]
  }

  function Ids(messages: seq<Message>): set<nat> { set m | m in messages :: m.id }

  /** An automated sender whose policy is ignore, or that has none. */
  predicate SenderIgnored(policy: Policy, m: Message) {
    m.senderIsBot && (m.senderId !in policy.senders || policy.senders[m.senderId].mode == IgnoreMode)
  }

  predicate Immediate(policy: Policy, m: Message) {
    !m.senderIsBot || m.senderId !in policy.senders || policy.senders[m.senderId].mode != RollupMode
  }

  predicate RollupDue(policy: Policy, now: nat, m: Message) {
    && m.senderId in policy.senders
    && policy.senders[m.senderId].rollupHours.Some?
    && policy.senders[m.senderId].rollupHours.value > 0
    && (m.senderId in policy.lastJudged ==>
          policy.lastJudged[m.senderId] + policy.senders[m.senderId].rollupHours.value * MS_PER_HOUR <= now)
  }

  function Candidates(policy: Policy, messages: seq<Message>): seq<Message> {
    Filter(messages, m => !SenderIgnored(policy, m))
  }

  function Evaluated(policy: Policy, messages: seq<Message>, now: nat): seq<Message> {
    var candidates := Candidates(policy, messages);
    if exists m :: m in candidates && Immediate(policy, m) then candidates
    else Filter(candidates, m => RollupDue(policy, now, m))
  }

  function Actionable(policy: Policy, judged: seq<Message>): Option<Message> {
    FindLast(judged, (m: Message) =>
      m.senderIsBot && m.senderId in policy.senders && policy.senders[m.senderId].mode == ActionMode)
  }

  function Decide(policy: Policy, judged: seq<Message>): Decision {
    var actionable := Actionable(policy, judged);
    if actionable.Some? then Decision(true, Some("configured as actionable"), Some(actionable.value.eventId))
    else policy.judge
  }

  function TriggerOf(judged: seq<Message>, decision: Decision): (trigger: Message)
    requires judged != []
    ensures trigger in judged
  {
    var asked := FindFirst(judged, (m: Message) => decision.askedByEventId == Some(m.eventId));
    if asked.Some? then asked.value else judged[|judged| - 1]
  }

  // ----- what one evaluation may do to a row -----

  predicate IgnoredAt(before: AmbientRow, after: AmbientRow, now: nat) {
    before.status == Observed && after == before.(status := Ignored, judgedAt := Some(now))
  }

  predicate PromotedAt(before: AmbientRow, after: AmbientRow, now: nat) {
    before.status == Observed && after.status == Received && after.judgedAt == Some(now)
  }

  predicate TakenAway(before: AmbientRow, after: AmbientRow) {
    before.status == Observed && after == before.(status := Deferred)
  }

  type Rows = map<nat, AmbientRow>

  /** Every fetched row of a conversation is kept, ignored, taken by somebody else or promoted. At
      most one is promoted; it is among the at most twenty messages of its own context. A row whose
      sender may be heard in an enabled conversation that the decision acts on is ignored only
      beside a promoted trigger. */
  ghost predicate Split(policy: Policy, act: bool, messages: seq<Message>, before: Rows, after: Rows, taken: set<nat>,
                        now: nat) {
    && Ids(messages) <= before.Keys == after.Keys
    && (forall m :: m in messages ==>
          || after[m.id] == before[m.id]
          || IgnoredAt(before[m.id], after[m.id], now)
          || (m.id in taken && TakenAway(before[m.id], after[m.id]))
          || PromotedAt(before[m.id], after[m.id], now))
    && (forall m, n | m in messages && n in messages ::
          PromotedAt(before[m.id], after[m.id], now) && PromotedAt(before[n.id], after[n.id], now) ==> m.id == n.id)
    && (forall m :: m in messages && PromotedAt(before[m.id], after[m.id], now) ==>
          && m.id in after[m.id].context && m.id !in taken
          && |after[m.id].context| <= AMBIENT_CONTEXT_MESSAGES
          && forall id :: id in after[m.id].context ==> id in Ids(messages))
    && (forall m :: m in messages && IgnoredAt(before[m.id], after[m.id], now) ==>
          || !policy.enabled || SenderIgnored(policy, m) || !act
          || exists n :: n in messages && PromotedAt(before[n.id], after[n.id], now))
  }

  /** `findMany` with `status: observed`, oldest first, `take: AMBIENT_BATCH_SIZE`. */
  function Observable(messages: seq<Message>, rows: Rows): (observed: seq<Message>)
    requires Ids(messages) <= rows.Keys
    ensures |observed| <= AMBIENT_BATCH_SIZE
    ensures forall m :: m in observed ==> m in messages && rows[m.id].status == Observed
  {
    var all := Filter(messages, (m: Message) => m.id in rows && rows[m.id].status == Observed);
    if |all| <= AMBIENT_BATCH_SIZE then all
    else
      assert forall m :: m in all[..AMBIENT_BATCH_SIZE] ==> m in all;
      all[..AMBIENT_BATCH_SIZE]
  }

  function Conversation(observed: seq<Message>, c: nat): (batch: seq<Message>)
    ensures forall m :: m in batch <==> m in observed && m.conversation == c
  {
    Filter(observed, (m: Message) => m.conversation == c)
  }

  /** The keys of `byConversation`, each once. */
  function Conversations(observed: seq<Message>): (cs: seq<nat>)
    ensures forall m :: m in observed ==> m.conversation in cs
    ensures forall c :: c in cs ==> exists m :: m in observed && m.conversation == c
    ensures forall i, j :: 0 <= i < j < |cs| ==> cs[i] != cs[j]
  {
    if observed == [] then []
    else
      var last := observed[|observed| - 1];
      var cs := Conversations(observed[..|observed| - 1]);
      if last.conversation in cs then cs else cs + [last.conversation]
  }

  ghost predicate UniqueIds(messages: seq<Message>) {
    forall m, n :: m in messages && n in messages && m.id == n.id ==> m == n
  }

  /** The conversations `done` have been evaluated, each as if alone; no other row has changed. */
  ghost predicate EvaluatedFor(policies: map<nat, Policy>, observed: seq<Message>, before: Rows, after: Rows,
                               done: seq<nat>, now: nat, debounce: nat, taken: set<nat>) {
    && UniqueIds(observed) && Ids(observed) <= before.Keys == after.Keys
    && (forall id :: id in before && id !in Ids(observed) ==> after[id] == before[id])
    && (forall m :: m in observed ==> m.conversation in policies)
    && forall m :: m in observed ==>
         after[m.id] == if m.conversation in done
                        then Evaluation(policies[m.conversation], Conversation(observed, m.conversation),
                                        before[m.id], m.id, now, debounce, taken)
                        else before[m.id]
  }

  lemma OneMoreConversation(policies: map<nat, Policy>, observed: seq<Message>, before: Rows, middle: Rows, after: Rows,
                            done: seq<nat>, c: nat, now: nat, debounce: nat, taken: set<nat>)
    requires EvaluatedFor(policies, observed, before, middle, done, now, debounce, taken)
    requires c !in done && c in policies && middle.Keys == after.Keys
    requires forall id :: id in middle ==>
               after[id] == if id in Ids(Conversation(observed, c))
                            then Evaluation(policies[c], Conversation(observed, c), middle[id], id, now, debounce,
                                            taken)
                            else middle[id]
    ensures EvaluatedFor(policies, observed, before, after, done + [c], now, debounce, taken)
  {
    var batch := Conversation(observed, c);
    forall m | m in observed
      ensures after[m.id] == if m.conversation in done + [c]
                             then Evaluation(policies[m.conversation], Conversation(observed, m.conversation),
                                             before[m.id], m.id, now, debounce, taken)
                             else before[m.id]
    {
      assert m.id in Ids(batch) <==> m.conversation == c;
    }
  }

  /** The rows after one conversation. */
  function EvaluateOne(policy: Policy, batch: seq<Message>, rows: Rows, now: nat, debounce: nat,
                       taken: set<nat>): (after: Rows)
    requires UniqueIds(batch)
    ensures after.Keys == rows.Keys
  {
    map id | id in rows ::
      if id in Ids(batch) then Evaluation(policy, batch, rows[id], id, now, debounce, taken) else rows[id]
  }

  lemma Subset(observed: seq<Message>, c: nat)
    requires UniqueIds(observed)
    ensures UniqueIds(Conversation(observed, c))
  {}

  /** The rows after the first `k` conversations of a list, one after the other. */
  function EvaluateFirst(policies: map<nat, Policy>, observed: seq<Message>, rows: Rows, cs: seq<nat>, k: nat,
                         now: nat, debounce: nat, taken: set<nat>): (after: Rows)
    requires k <= |cs| && UniqueIds(observed) && forall c :: c in cs ==> c in policies
    ensures after.Keys == rows.Keys
    decreases k
  {
    if k == 0 then rows
    else
      Subset(observed, cs[k - 1]);
      EvaluateOne(policies[cs[k - 1]], Conversation(observed, cs[k - 1]),
                  EvaluateFirst(policies, observed, rows, cs, k - 1, now, debounce, taken), now, debounce, taken)
  }

  /** Evaluating conversations one after the other is evaluating each as if alone. */
  lemma {:induction false} ConversationsAreIndependent(policies: map<nat, Policy>, observed: seq<Message>, rows: Rows,
                                                      cs: seq<nat>, k: nat, now: nat, debounce: nat, taken: set<nat>)
    requires UniqueIds(observed) && Ids(observed) <= rows.Keys
    requires forall m :: m in observed ==> m.conversation in policies
    requires forall c :: c in cs ==> c in policies
    requires k <= |cs| && forall i, j :: 0 <= i < j < |cs| ==> cs[i] != cs[j]
    ensures EvaluatedFor(policies, observed, rows, EvaluateFirst(policies, observed, rows, cs, k, now, debounce, taken),
                         cs[..k], now, debounce, taken)
    decreases k
  {
    if k > 0 {
      var c, done := cs[k - 1], cs[..k - 1];
      ConversationsAreIndependent(policies, observed, rows, cs, k - 1, now, debounce, taken);
      Subset(observed, c);
      OneMoreConversation(policies, observed, rows,
                          EvaluateFirst(policies, observed, rows, cs, k - 1, now, debounce, taken),
                          EvaluateFirst(policies, observed, rows, cs, k, now, debounce, taken),
                          done, c, now, debounce, taken);
      assert done + [c] == cs[..k];
    }
  }

  /** The rows of the next conversation are still as they were fetched. */
  lemma StillObserved(policies: map<nat, Policy>, observed: seq<Message>, rows: Rows, cs: seq<nat>, k: nat,
                      now: nat, debounce: nat, taken: set<nat>)
    requires UniqueIds(observed) && Ids(observed) <= rows.Keys && k < |cs|
    requires forall m :: m in observed ==> m.conversation in policies && rows[m.id].status == Observed
    requires forall c :: c in cs ==> c in policies
    requires forall i, j :: 0 <= i < j < |cs| ==> cs[i] != cs[j]
    ensures var middle := EvaluateFirst(policies, observed, rows, cs, k, now, debounce, taken);
            && UniqueIds(Conversation(observed, cs[k])) && Ids(Conversation(observed, cs[k])) <= middle.Keys
            && forall m :: m in Conversation(observed, cs[k]) ==> middle[m.id].status == Observed
  {
    ConversationsAreIndependent(policies, observed, rows, cs, k, now, debounce, taken);
  }

  /** Whether the decision about a conversation is to act. */
  predicate Acts(policy: Policy, batch: seq<Message>, now: nat) {
    Decide(policy, Suffix(Evaluated(policy, batch, now), AMBIENT_CONTEXT_MESSAGES)).act
  }

  /** After a pass every conversation's fetched rows are split, and no other row has changed. */
  ghost predicate PassSplits(policies: map<nat, Policy>, observed: seq<Message>, before: Rows, after: Rows, now: nat,
                             taken: set<nat>) {
    && Ids(observed) <= before.Keys == after.Keys
    && (forall m :: m in observed ==> m.conversation in policies)
    && (forall id :: id in before && id !in Ids(observed) ==> after[id] == before[id])
    && forall c :: c in Conversations(observed) ==>
         && c in policies
         && Split(policies[c], Acts(policies[c], Conversation(observed, c), now), Conversation(observed, c), before,
                  after, taken, now)
  }

  lemma PassIsSplit(policies: map<nat, Policy>, observed: seq<Message>, rows: Rows, now: nat, debounce: nat,
                    taken: set<nat>)
    requires UniqueIds(observed) && Ids(observed) <= rows.Keys
    requires forall m :: m in observed ==> m.conversation in policies && rows[m.id].status == Observed
    ensures forall c :: c in Conversations(observed) ==> c in policies
    ensures var cs := Conversations(observed);
            PassSplits(policies, observed, rows,
                       EvaluateFirst(policies, observed, rows, cs, |cs|, now, debounce, taken), now, taken)
  {
    var cs := Conversations(observed);
    assert forall c :: c in cs ==> c in policies;
    ConversationsAreIndependent(policies, observed, rows, cs, |cs|, now, debounce, taken);
    var after := EvaluateFirst(policies, observed, rows, cs, |cs|, now, debounce, taken);
    assert cs[..|cs|] == cs;
    forall c | c in cs
      ensures Split(policies[c], Acts(policies[c], Conversation(observed, c), now), Conversation(observed, c), rows,
                    after, taken, now)
    {
      Subset(observed, c);
      EvaluationSplits(policies[c], Conversation(observed, c), rows, after, taken, now, debounce);
    }
  }

  function IgnoredIds(policy: Policy, batch: seq<Message>): (ids: set<nat>)
    ensures ids <= Ids(batch)
    ensures UniqueIds(batch) ==> forall m :: m in batch ==> (m.id in ids <==> SenderIgnored(policy, m))
  {
    Ids(Filter(batch, m => SenderIgnored(policy, m)))
  }

  /** The sets a conversation that got as far as a decision works with. */
  datatype Verdict = Verdict(ignored: set<nat>, evaluated: set<nat>, taken: set<nat>, act: bool, trigger: nat,
                             reason: Option<string>, context: seq<nat>)

  function VerdictOf(policy: Policy, batch: seq<Message>, now: nat, taken: set<nat>): (v: Verdict)
    requires Evaluated(policy, batch, now) != [] && UniqueIds(batch)
    ensures v.evaluated <= Ids(batch) && v.ignored <= Ids(batch)
    ensures v.trigger in v.evaluated && v.trigger in v.context && |v.context| <= AMBIENT_CONTEXT_MESSAGES
    ensures forall id :: id in v.context ==> id in v.evaluated
    ensures forall m :: m in batch && m.id in v.ignored ==> SenderIgnored(policy, m)
    ensures v.evaluated !! v.ignored
  {
    var evaluated := Evaluated(policy, batch, now);
    var judged := Suffix(evaluated, AMBIENT_CONTEXT_MESSAGES);
    var decision := Decide(policy, judged);
    var trigger := TriggerOf(judged, decision);
    var context := seq(|judged|, i requires 0 <= i < |judged| => judged[i].id);
    assert Ids(judged) <= Ids(evaluated);
    ContextHolds(judged, context, trigger);
    HeardOnly(policy, batch, now);
    Verdict(IgnoredIds(policy, batch), Ids(evaluated), taken * Ids(batch), decision.act, trigger.id, decision.reason,
            context)
  }

  lemma HeardOnly(policy: Policy, batch: seq<Message>, now: nat)
    requires UniqueIds(batch)
    ensures Ids(Evaluated(policy, batch, now)) <= Ids(batch)
    ensures Ids(Evaluated(policy, batch, now)) !! IgnoredIds(policy, batch)
  {
    assert forall m :: m in Evaluated(policy, batch, now) ==> m in batch && !SenderIgnored(policy, m);
  }

  lemma ContextHolds(judged: seq<Message>, context: seq<nat>, trigger: Message)
    requires |context| == |judged| && (forall i :: 0 <= i < |judged| ==> context[i] == judged[i].id)
    requires trigger in judged
    ensures trigger.id in context && trigger.id in Ids(judged)
    ensures forall id :: id in context ==> id in Ids(judged)
  {
    var k :| 0 <= k < |judged| && judged[k] == trigger;
    assert context[k] == trigger.id;
    forall id | id in context ensures id in Ids(judged) {
      var i :| 0 <= i < |context| && context[i] == id;
      assert judged[i] in judged;
    }
  }

  /** What the verdict leaves in a row that was observed. */
  function Decided(v: Verdict, before: AmbientRow, id: nat, now: nat): AmbientRow {
    var ignored := before.(status := Ignored, judgedAt := Some(now));
    if id in v.ignored then ignored
    else if id in v.taken then before.(status := Deferred)
    else if !v.act then if id in v.evaluated then ignored else before
    else if v.trigger in v.taken then before
    else if id == v.trigger then AmbientRow(Received, Some(now), v.reason, v.context)
    else if id in v.evaluated then ignored else before
  }

  /** What one evaluation of a conversation leaves in one of its rows. */
  function Evaluation(policy: Policy, batch: seq<Message>, before: AmbientRow, id: nat, now: nat, debounce: nat,
                      taken: set<nat>): AmbientRow
    requires UniqueIds(batch)
  {
    var evaluated := Evaluated(policy, batch, now);
    if !policy.enabled then before.(status := Ignored, judgedAt := Some(now))
    else if evaluated == [] || evaluated[|evaluated| - 1].createdAt + debounce > now then
      if id in IgnoredIds(policy, batch) then before.(status := Ignored, judgedAt := Some(now)) else before
    else Decided(VerdictOf(policy, batch, now, taken), before, id, now)
  }

  /** A verdict splits the rows it is about. */
  lemma VerdictSplits(policy: Policy, v: Verdict, batch: seq<Message>, before: Rows, after: Rows, taken: set<nat>,
                      now: nat)
    requires Ids(batch) <= before.Keys == after.Keys && v.taken <= taken
    requires v.evaluated <= Ids(batch) && v.trigger in v.evaluated && v.trigger in v.context
    requires v.evaluated !! v.ignored && |v.context| <= AMBIENT_CONTEXT_MESSAGES
    requires forall id :: id in v.context ==> id in v.evaluated
    requires forall m :: m in batch && m.id in v.ignored ==> SenderIgnored(policy, m)
    requires v.taken == taken * Ids(batch)
    requires forall m :: m in batch ==>
               before[m.id].status == Observed && after[m.id] == Decided(v, before[m.id], m.id, now)
    ensures Split(policy, v.act, batch, before, after, taken, now)
  {
    var t :| t in batch && t.id == v.trigger;
    assert v.act && v.trigger !in v.taken ==> PromotedAt(before[t.id], after[t.id], now);
    forall m | m in batch && PromotedAt(before[m.id], after[m.id], now)
      ensures m.id == v.trigger && m.id !in taken && after[m.id].context == v.context
    {}
  }

  /** Without a verdict rows are only kept or ignored. */
  lemma NoVerdictSplits(policy: Policy, act: bool, batch: seq<Message>, before: Rows, after: Rows, taken: set<nat>,
                        now: nat)
    requires Ids(batch) <= before.Keys == after.Keys
    requires forall m :: m in batch ==>
               || after[m.id] == before[m.id]
               || (IgnoredAt(before[m.id], after[m.id], now) && (!policy.enabled || SenderIgnored(policy, m)))
    requires forall m :: m in batch ==> before[m.id].status == Observed
    ensures Split(policy, act, batch, before, after, taken, now)
  {}

  /** Every evaluation of a conversation conserves its rows. */
  lemma EvaluationSplits(policy: Policy, batch: seq<Message>, before: Rows, after: Rows, taken: set<nat>, now: nat,
                         debounce: nat)
    requires Ids(batch) <= before.Keys == after.Keys && UniqueIds(batch)
    requires forall m :: m in batch ==> before[m.id].status == Observed
    requires forall m :: m in batch ==>
               after[m.id] == Evaluation(policy, batch, before[m.id], m.id, now, debounce, taken)
    ensures Split(policy, Acts(policy, batch, now), batch, before, after, taken, now)
  {
    var evaluated := Evaluated(policy, batch, now);
    var act := Acts(policy, batch, now);
    if policy.enabled && evaluated != [] && evaluated[|evaluated| - 1].createdAt + debounce <= now {
      VerdictSplits(policy, VerdictOf(policy, batch, now, taken), batch, before, after, taken, now);
    } else {
      NoVerdictSplits(policy, act, batch, before, after, taken, now);
    }
  }
}
