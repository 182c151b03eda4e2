/** `evaluateAmbient` itself: the pass over the observed rows, with other processes taking rows away
    while the judge decides. */
module TeamChatAmbientPass {
  import opened Wrappers
  import opened TeamChatRows
  import opened TeamChatAmbient
  import opened TeamChatEngagement

  ghost predicate DistinctPerConversation(messages: seq<Message>) {
    forall i, j | 0 <= i < j < |messages| ::
      messages[i].conversation == messages[j].conversation ==> messages[i].eventId != messages[j].eventId
  }

  lemma {:induction false} FilterStaysDistinct(xs: seq<Message>, keep: Message -> bool)
    requires DistinctPerConversation(xs)
    ensures DistinctPerConversation(Filter(xs, keep))
  {
    if xs != [] {
      var rest := Filter(xs[1..], keep);
      FilterStaysDistinct(xs[1..], keep);
      forall j | 0 <= j < |rest| && rest[j].conversation == xs[0].conversation
        ensures rest[j].eventId != xs[0].eventId
      {
        assert rest[j] in rest;
        var i :| 0 <= i < |xs[1..]| && xs[1..][i] == rest[j];
        assert xs[i + 1] == rest[j];
      }
    }
  }

  lemma ObservedStaysDistinct(messages: seq<Message>, rows: Rows)
    requires DistinctPerConversation(messages) && Ids(messages) <= rows.Keys
    ensures DistinctPerConversation(Observable(messages, rows))
  {
    var all := Filter(messages, (m: Message) => m.id in rows && rows[m.id].status == Observed);
    FilterStaysDistinct(messages, (m: Message) => m.id in rows && rows[m.id].status == Observed);
    PrefixStaysDistinct(all, Observable(messages, rows));
  }

  lemma PrefixStaysDistinct(all: seq<Message>, some: seq<Message>)
    requires DistinctPerConversation(all) && some <= all
    ensures DistinctPerConversation(some)
  {
    assert forall i :: 0 <= i < |some| ==> some[i] == all[i];
  }

  /** The pass fetches the oldest of the observed messages, a hundred of them if there are that many. */
  lemma OldestAreFetched(messages: seq<Message>, rows: Rows)
    requires Ids(messages) <= rows.Keys
    ensures var all := Filter(messages, (m: Message) => m.id in rows && rows[m.id].status == Observed);
            && Observable(messages, rows) <= all
            && |Observable(messages, rows)| == if |all| < 100 then |all| else 100
  {}

  /** A pass treats every conversation it fetched by the rules. */
  lemma PassFollowsTheRules(policies: map<nat, Policy>, observed: seq<Message>, rows: Rows, now: nat, debounce: nat,
                            taken: set<nat>)
    requires UniqueIds(observed) && Ids(observed) <= rows.Keys && DistinctPerConversation(observed)
    requires forall m :: m in observed ==> m.conversation in policies
    ensures forall c :: c in Conversations(observed) ==> c in policies
    ensures var cs := Conversations(observed);
            var after := EvaluateFirst(policies, observed, rows, cs, |cs|, now, debounce, taken);
            forall c :: c in cs ==>
              FollowsTheRules(policies[c], Conversation(observed, c), rows, after, taken, now, debounce)
  {
    var cs := Conversations(observed);
    assert forall c :: c in cs ==> c in policies;
    ConversationsAreIndependent(policies, observed, rows, cs, |cs|, now, debounce, taken);
    assert cs[..|cs|] == cs;
    var after := EvaluateFirst(policies, observed, rows, cs, |cs|, now, debounce, taken);
    forall c | c in cs
      ensures FollowsTheRules(policies[c], Conversation(observed, c), rows, after, taken, now, debounce)
    {
      ConversationFollowsTheRules(policies, observed, rows, after, cs, c, now, debounce, taken);
    }
  }

  lemma ConversationFollowsTheRules(policies: map<nat, Policy>, observed: seq<Message>, rows: Rows, after: Rows,
                                    done: seq<nat>, c: nat, now: nat, debounce: nat, taken: set<nat>)
    requires EvaluatedFor(policies, observed, rows, after, done, now, debounce, taken)
    requires DistinctPerConversation(observed) && c in done && c in policies
    ensures FollowsTheRules(policies[c], Conversation(observed, c), rows, after, taken, now, debounce)
  {
    var batch := Conversation(observed, c);
    Subset(observed, c);
    FilterStaysDistinct(observed, (m: Message) => m.conversation == c);
    assert DistinctEvents(batch) by { assert forall i :: 0 <= i < |batch| ==> batch[i] in batch; }
    EvaluationFollowsTheRules(policies[c], batch, rows, after, taken, now, debounce);
  }

  class AmbientBridge {
    const messages: seq<Message>   // every external message, oldest first
    var rows: Rows

    ghost predicate Valid()
      reads this
    {
      Ids(messages) <= rows.Keys
    }

    /** `markAmbientIgnored`: one guarded update of many rows. */
    method MarkAmbientIgnored(ids: set<nat>, judgedAt: nat)
      requires ids <= rows.Keys
      modifies this`rows
      ensures rows.Keys == old(rows).Keys
      ensures forall id :: id in rows ==>
        rows[id] == if id in ids && old(rows)[id].status == Observed
                    then old(rows)[id].(status := Ignored, judgedAt := Some(judgedAt)) else old(rows)[id]
    {
      rows := map id | id in rows ::
        if id in ids && rows[id].status == Observed
        then rows[id].(status := Ignored, judgedAt := Some(judgedAt)) else rows[id];
    }

    /** `promoteAmbientTrigger`. */
    method PromoteAmbientTrigger(id: nat, judgedAt: nat, reason: Option<string>, context: seq<nat>)
      returns (won: bool)
      requires id in rows
      modifies this`rows
      ensures won == (old(rows)[id].status == Observed)
      ensures rows == if won then old(rows)[id := AmbientRow(Received, Some(judgedAt), reason, context)] else old(rows)
    {
      won := rows[id].status == Observed;
      if won { rows := rows[id := AmbientRow(Received, Some(judgedAt), reason, context)]; }
    }

    /** The body of the loop over conversations. */
    method EvaluateConversation(policy: Policy, batch: seq<Message>, now: nat, debounce: nat, taken: set<nat>)
      requires Ids(batch) <= rows.Keys && UniqueIds(batch)
      requires forall m :: m in batch ==> rows[m.id].status == Observed
      modifies this`rows
      ensures rows.Keys == old(rows).Keys
      ensures forall id :: id in rows ==>
        rows[id] == if id in Ids(batch) then Evaluation(policy, batch, old(rows)[id], id, now, debounce, taken)
                    else old(rows)[id]
    {
      if !policy.enabled {
        MarkAmbientIgnored(Ids(batch), now);
        return;
      }
      MarkAmbientIgnored(IgnoredIds(policy, batch), now);
      var evaluated := Evaluated(policy, batch, now);
      if evaluated == [] || evaluated[|evaluated| - 1].createdAt + debounce > now { return; }
      Judge(VerdictOf(policy, batch, now, taken), Ids(batch), old(rows), now);
    }

    /** The rest of the body once the ignored senders are out: other processes run while the judge
        decides, then the decision is written. `before`: the rows as they were fetched. */
    method Judge(verdict: Verdict, ghost ids: set<nat>, ghost before: Rows, now: nat)
      requires ids <= rows.Keys == before.Keys && verdict.evaluated <= ids && verdict.taken <= ids
      requires verdict.ignored <= ids && verdict.trigger in verdict.evaluated && verdict.evaluated !! verdict.ignored
      requires forall id :: id in ids ==> before[id].status == Observed
      requires forall id :: id in rows ==>
        rows[id] == if id in verdict.ignored then before[id].(status := Ignored, judgedAt := Some(now)) else before[id]
      modifies this`rows
      ensures rows.Keys == old(rows).Keys
      ensures forall id :: id in rows ==>
        rows[id] == if id in ids then Decided(verdict, before[id], id, now) else before[id]
    {
      TakeAway(verdict.taken);
      ApplyVerdict(verdict, now);
    }

    method EvaluateBatch(policy: Policy, batch: seq<Message>, now: nat, debounce: nat, taken: set<nat>)
      requires Ids(batch) <= rows.Keys && UniqueIds(batch)
      requires forall m :: m in batch ==> rows[m.id].status == Observed
      modifies this`rows
      ensures rows == EvaluateOne(policy, batch, old(rows), now, debounce, taken)
    {
      EvaluateConversation(policy, batch, now, debounce, taken);
      assert rows == EvaluateOne(policy, batch, old(rows), now, debounce, taken);
    }

    /** One whole pass: the oldest hundred observed messages, one evaluation per conversation. */
    method EvaluateAmbient(policies: map<nat, Policy>, now: nat, debounce: nat, taken: set<nat>)
      requires Valid() && UniqueIds(messages)
      requires (forall m :: m in messages ==> m.conversation in policies) && DistinctPerConversation(messages)
      modifies this`rows
      ensures Valid() && rows.Keys == old(rows).Keys
      ensures var observed := Observable(messages, old(rows));
              var conversations := Conversations(observed);
              && rows == EvaluateFirst(policies, observed, old(rows), conversations, |conversations|, now, debounce,
                                       taken)
              && PassSplits(policies, observed, old(rows), rows, now, taken)
              && forall c :: c in conversations ==>
                   FollowsTheRules(policies[c], Conversation(observed, c), old(rows), rows, taken, now, debounce)
    {
      var observed := Observable(messages, rows);
      var conversations := Conversations(observed);
      assert UniqueIds(observed);
      assert forall c :: c in conversations ==> c in policies;
      for k := 0 to |conversations|
        invariant rows == EvaluateFirst(policies, observed, old(rows), conversations, k, now, debounce, taken)
      {
        var c := conversations[k];
        StillObserved(policies, observed, old(rows), conversations, k, now, debounce, taken);
        EvaluateBatch(policies[c], Conversation(observed, c), now, debounce, taken);
      }
      PassIsSplit(policies, observed, old(rows), now, debounce, taken);
      ObservedStaysDistinct(messages, old(rows));
      PassFollowsTheRules(policies, observed, old(rows), now, debounce, taken);
    }

    /** The decision's writes: promote the trigger, and only if that won ignore the rest. */
    method ApplyVerdict(verdict: Verdict, now: nat)
      requires verdict.evaluated <= rows.Keys && verdict.trigger in verdict.evaluated
      modifies this`rows
      ensures rows.Keys == old(rows).Keys
      ensures forall id :: id in rows ==>
        var before := old(rows)[id];
        rows[id] ==
          if verdict.act && old(rows)[verdict.trigger].status != Observed then before
          else if verdict.act && id == verdict.trigger
          then AmbientRow(Received, Some(now), verdict.reason, verdict.context)
          else if id in verdict.evaluated && before.status == Observed
          then before.(status := Ignored, judgedAt := Some(now))
          else before
    {
      if !verdict.act {
        MarkAmbientIgnored(verdict.evaluated, now);
        return;
      }
      var promoted := PromoteAmbientTrigger(verdict.trigger, now, verdict.reason, verdict.context);
      if promoted {
        MarkAmbientIgnored(verdict.evaluated - {verdict.trigger}, now);
      }
    }

    method TakeAway(ids: set<nat>)
      requires ids <= rows.Keys
      modifies this`rows
      ensures rows.Keys == old(rows).Keys
      ensures forall id :: id in rows ==>
        rows[id] == if id in ids && old(rows)[id].status == Observed
                    then old(rows)[id].(status := Deferred) else old(rows)[id]
    {
      rows := map id | id in rows ::
        if id in ids && rows[id].status == Observed then rows[id].(status := Deferred) else rows[id];
    }
  }
}
