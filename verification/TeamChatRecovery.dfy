/** Crash recovery over the whole table: `recoverExpiredDeferredMessages` takes the oldest twenty
    expired deferred rows at a time, and a routing-marked row needs two passes. */
module TeamChatRecovery {
  import opened Wrappers
  import opened TeamChatRows
  import opened TeamChatSafety

  /** A stored event: its row, and whether its wake nonce is in the thread. */
  datatype Message = Message(id: nat, ambient: bool, woken: bool, row: Row)

  predicate Pending(m: Message, now: nat) { m.row.status == Deferred && Expired(m.row, now) }

  /** What the body of the recovery loop does to one fetched row. */
  function RecoverRow(m: Message, now: nat, inFlight: set<nat>): Message {
    if m.woken then m.(row := IgnoreExpired(m.row, now).row)
    else if RoutingOwned(m.row.reason) then
      if m.id in inFlight then m else m.(row := ClearExpiredRouting(m.row, now).row)
    else m.(row := PromoteExpired(m.row, now, m.ambient).row)
  }

  /** One pass over the table, oldest row first, touching at most `limit` pending rows. */
  function Pass(table: seq<Message>, limit: nat, now: nat, inFlight: set<nat>): (t: seq<Message>)
    ensures |t| == |table|
  {
    if table == [] then []
    else if Pending(table[0], now) && limit > 0 then
      [RecoverRow(table[0], now, inFlight)] + Pass(table[1..], limit - 1, now, inFlight)
    else [table[0]] + Pass(table[1..], limit, now, inFlight)
  }

  /** `findMany` with its `where`, `orderBy: createdAt` and `take`: the positions fetched. */
  function Fetch(table: seq<Message>, from: nat, limit: nat, now: nat): (positions: seq<nat>)
    requires from <= |table|
    ensures |positions| <= limit
    ensures forall i :: i in positions ==> from <= i < |table| && Pending(table[i], now)
    ensures forall j, k :: 0 <= j < k < |positions| ==> positions[j] < positions[k]
    decreases |table| - from
  {
    if from == |table| || limit == 0 then []
    else if Pending(table[from], now) then
      var rest := Fetch(table, from + 1, limit - 1, now);
      assert forall k :: 0 <= k < |rest| ==> rest[k] in rest;
      [from] + rest
    else Fetch(table, from + 1, limit, now)
  }

  lemma {:induction false} PassTouchesTheFetched(table: seq<Message>, from: nat, limit: nat, now: nat,
                                                 inFlight: set<nat>, i: nat)
    requires from <= i < |table|
    ensures Pass(table[from..], limit, now, inFlight)[i - from]
         == if i in Fetch(table, from, limit, now) then RecoverRow(table[i], now, inFlight) else table[i]
    decreases |table| - from
  {
    if i == from {
      assert table[from..][0] == table[from];
    } else {
      var next := if Pending(table[from], now) && limit > 0 then limit - 1 else limit;
      PassTouchesTheFetched(table, from + 1, next, now, inFlight, i);
      PassGoesOn(table, from, limit, now, inFlight, i);
      FetchGoesOn(table, from, limit, now, i);
    }
  }

  lemma PassGoesOn(table: seq<Message>, from: nat, limit: nat, now: nat, inFlight: set<nat>, i: nat)
    requires from < i < |table|
    ensures var next := if Pending(table[from], now) && limit > 0 then limit - 1 else limit;
            Pass(table[from..], limit, now, inFlight)[i - from]
                == Pass(table[from + 1..], next, now, inFlight)[i - (from + 1)]
  {
    assert table[from..][0] == table[from] && table[from..][1..] == table[from + 1..];
  }

  lemma FetchGoesOn(table: seq<Message>, from: nat, limit: nat, now: nat, i: nat)
    requires from < i < |table|
    ensures var next := if Pending(table[from], now) && limit > 0 then limit - 1 else limit;
            i in Fetch(table, from, limit, now) <==> i in Fetch(table, from + 1, next, now)
  {}

  class TeamChatBridge {
    var table: seq<Message>              // externalMessage rows, oldest first
    var inFlightRoutineWakes: set<nat>

    method MarkRoutineWakeInFlight(externalMessageId: nat)
      modifies this`inFlightRoutineWakes
      ensures inFlightRoutineWakes == old(inFlightRoutineWakes) + {externalMessageId}
    {
      inFlightRoutineWakes := inFlightRoutineWakes + {externalMessageId};
    }

    method ClearRoutineWakeInFlight(externalMessageId: nat)
      modifies this`inFlightRoutineWakes
      ensures inFlightRoutineWakes == old(inFlightRoutineWakes) - {externalMessageId}
    {
      inFlightRoutineWakes := inFlightRoutineWakes - {externalMessageId};
    }

    /** The loop of the original, absent concurrent writers. */
    method RecoverExpiredDeferredMessages(now: nat)
      modifies this`table
      ensures table == Pass(old(table), BATCH_SIZE, now, inFlightRoutineWakes)
    {
      var expired := Fetch(table, 0, BATCH_SIZE, now);
      for k := 0 to |expired|
        invariant |table| == |old(table)|
        invariant forall i :: 0 <= i < |table| ==>
          table[i] == if i in expired[..k] then RecoverRow(old(table)[i], now, inFlightRoutineWakes) else old(table)[i]
      {
        var position := expired[k];
        assert position in expired;
        var message := table[position];
        if message.woken {
          table := table[position := message.(row := IgnoreExpired(message.row, now).row)];
        } else if RoutingOwned(message.row.reason) {
          if message.id !in inFlightRoutineWakes {
            table := table[position := message.(row := ClearExpiredRouting(message.row, now).row)];
          }
        } else {
          table := table[position := message.(row := PromoteExpired(message.row, now, message.ambient).row)];
        }
        assert expired[..k + 1] == expired[..k] + [position];
      }
      forall i | 0 <= i < |table| ensures table[i] == Pass(old(table), BATCH_SIZE, now, inFlightRoutineWakes)[i] {
        assert expired[..|expired|] == expired;
        assert old(table)[0..] == old(table);
        PassTouchesTheFetched(old(table), 0, BATCH_SIZE, now, inFlightRoutineWakes, i);
      }
    }
  }

  // ----- what recovery is for -----

  /** A pass leaves a routing-marked row alone while the same bridge has its wake in flight. */
  lemma InFlightIsSpared(table: seq<Message>, limit: nat, now: nat, inFlight: set<nat>, i: nat)
    requires i < |table| && table[i].id in inFlight && RoutingOwned(table[i].row.reason) && !table[i].woken
    ensures Pass(table, limit, now, inFlight)[i] == table[i]
  {
    assert table[0..] == table;
    PassTouchesTheFetched(table, 0, limit, now, inFlight, i);
  }

  /** Where an orphaned row ends: retired if its wake committed, handed to reconciliation if not. */
  function Outcome(m: Message): Message {
    if m.row.status != Deferred then m
    else if m.woken then m.(row := m.row.(status := Ignored, reason := RoutineWake, lease := None))
    else m.(row := m.row.(status := if m.ambient then Observed else Received, reason := NoReason, lease := None))
  }

  /** Every deferred row is an orphan expired at `start`, or is leased past `horizon`. */
  ghost predicate Orphaned(m: Message, start: nat, horizon: nat, inFlight: set<nat>) {
    && RowInv(m.row)
    && (m.row.status == Deferred ==>
          (m.row.lease.value <= start && m.id !in inFlight) || m.row.lease.value > horizon)
  }

  ghost predicate AllOrphaned(table: seq<Message>, start: nat, horizon: nat, inFlight: set<nat>) {
    forall i :: 0 <= i < |table| ==> Orphaned(table[i], start, horizon, inFlight)
  }

  function Count(table: seq<Message>, now: nat): nat {
    if table == [] then 0 else (if Pending(table[0], now) then 1 else 0) + Count(table[1..], now)
  }

  /** One visit brings a row to its outcome, except that a routing mark without a nonce costs one. */
  lemma Visit(m: Message, now: nat, horizon: nat, inFlight: set<nat>)
    requires Orphaned(m, now, horizon, inFlight) && Pending(m, now) && now <= horizon
    ensures var m' := RecoverRow(m, now, inFlight);
            && Orphaned(m', now, horizon, inFlight) && Outcome(m') == Outcome(m)
            && (RoutingOwned(m.row.reason) && !m.woken ==> Pending(m', now) && m'.row.reason == NoReason)
            && (!(RoutingOwned(m.row.reason) && !m.woken) ==> m' == Outcome(m))
  {}

  lemma Later(table: seq<Message>, start: nat, now: nat, horizon: nat, inFlight: set<nat>)
    requires AllOrphaned(table, start, horizon, inFlight) && start <= now <= horizon
    ensures AllOrphaned(table, now, horizon, inFlight) && Count(table, now) == Count(table, start)
  {
    if table != [] {
      assert Orphaned(table[0], start, horizon, inFlight);
      assert forall i :: 0 <= i < |table[1..]| ==> table[1..][i] == table[i + 1];
      Later(table[1..], start, now, horizon, inFlight);
    }
  }

  /** `m'` is `m` on its way to its outcome; it stops being pending only there. */
  ghost predicate Progress(m: Message, m': Message, now: nat) {
    && (!Pending(m, now) ==> m' == m)
    && (Pending(m, now) ==> Outcome(m') == Outcome(m) && (Pending(m', now) || m' == Outcome(m)))
  }

  /** A pass keeps every row on its way to its outcome. */
  lemma {:induction false} PassKeeps(table: seq<Message>, limit: nat, now: nat, horizon: nat, inFlight: set<nat>)
    requires AllOrphaned(table, now, horizon, inFlight) && now <= horizon
    ensures AllOrphaned(Pass(table, limit, now, inFlight), now, horizon, inFlight)
    ensures forall i :: 0 <= i < |table| ==> Progress(table[i], Pass(table, limit, now, inFlight)[i], now)
  {
    if table != [] {
      assert Orphaned(table[0], now, horizon, inFlight);
      if Pending(table[0], now) { Visit(table[0], now, horizon, inFlight); }
      var next := if Pending(table[0], now) && limit > 0 then limit - 1 else limit;
      assert forall i :: 0 <= i < |table[1..]| ==> table[1..][i] == table[i + 1];
      PassKeeps(table[1..], next, now, horizon, inFlight);
    }
  }

  lemma {:induction false} PassNeverAdds(table: seq<Message>, limit: nat, now: nat, horizon: nat, inFlight: set<nat>)
    requires AllOrphaned(table, now, horizon, inFlight) && now <= horizon
    ensures Count(Pass(table, limit, now, inFlight), now) <= Count(table, now)
  {
    if table != [] {
      assert Orphaned(table[0], now, horizon, inFlight);
      var next := if Pending(table[0], now) && limit > 0 then limit - 1 else limit;
      assert forall i :: 0 <= i < |table[1..]| ==> table[1..][i] == table[i + 1];
      PassNeverAdds(table[1..], next, now, horizon, inFlight);
      var t := Pass(table, limit, now, inFlight);
      assert t[1..] == Pass(table[1..], next, now, inFlight);
    }
  }

  function Min(a: nat, b: nat): nat { if a < b then a else b }

  lemma {:induction false} IdlePass(table: seq<Message>, now: nat, inFlight: set<nat>)
    ensures Pass(table, 0, now, inFlight) == table
  {
    if table != [] { IdlePass(table[1..], now, inFlight); }
  }

  /** Two passes bring the oldest `limit` pending rows to their outcome. */
  lemma {:induction false} TwoPasses(table: seq<Message>, first: nat, second: nat, now: nat, later: nat,
                                     horizon: nat, inFlight: set<nat>)
    requires AllOrphaned(table, now, horizon, inFlight) && now <= later <= horizon && first <= second
    ensures Count(Pass(Pass(table, first, now, inFlight), second, later, inFlight), later)
         <= Count(table, now) - Min(first, Count(table, now))
  {
    if table != [] {
      var head, tail := table[0], table[1..];
      assert Orphaned(head, now, horizon, inFlight);
      assert forall i :: 0 <= i < |tail| ==> tail[i] == table[i + 1];
      if first == 0 {
        IdlePass(table, now, inFlight);
        Later(table, now, later, horizon, inFlight);
        PassNeverAdds(table, second, later, horizon, inFlight);
      } else {
        var visited := Pending(head, now);
        var head' := if visited then RecoverRow(head, now, inFlight) else head;
        var first' := if visited then first - 1 else first;
        var middle := Pass(table, first, now, inFlight);
        assert middle[0] == head' && middle[1..] == Pass(tail, first', now, inFlight);
        if visited { Visit(head, now, horizon, inFlight); }
        var again := Pending(head', later);
        if again { Visit(head', later, horizon, inFlight); }
        var second' := if again && second > 0 then second - 1 else second;
        TwoPasses(tail, first', second', now, later, horizon, inFlight);
        var last := Pass(middle, second, later, inFlight);
        assert last[1..] == Pass(middle[1..], second', later, inFlight);
      }
    }
  }

  function Passes(table: seq<Message>, nows: seq<nat>, inFlight: set<nat>): seq<Message>
    decreases |nows|
  {
    if nows == [] then table else Passes(Pass(table, BATCH_SIZE, nows[0], inFlight), nows[1..], inFlight)
  }

  predicate Ascending(nows: seq<nat>, start: nat, horizon: nat) {
    nows != [] ==> start <= nows[0] <= horizon && Ascending(nows[1..], nows[0], horizon)
  }

  /** However many passes the bridge makes while a wake of its own is in flight, they leave its
      routing-marked row alone. */
  lemma {:induction false} SparedWhileInFlight(table: seq<Message>, nows: seq<nat>, inFlight: set<nat>, i: nat)
    requires i < |table| && table[i].id in inFlight && RoutingOwned(table[i].row.reason) && !table[i].woken
    ensures |Passes(table, nows, inFlight)| == |table| && Passes(table, nows, inFlight)[i] == table[i]
    decreases |nows|
  {
    if nows != [] {
      InFlightIsSpared(table, BATCH_SIZE, nows[0], inFlight, i);
      SparedWhileInFlight(Pass(table, BATCH_SIZE, nows[0], inFlight), nows[1..], inFlight, i);
    }
  }

  /** Rows still pending; a row leased past the horizon never is. */
  lemma {:induction false} NonePending(table: seq<Message>, start: nat, horizon: nat, inFlight: set<nat>, i: nat)
    requires Count(table, start) == 0 && i < |table|
    ensures !Pending(table[i], start)
  {
    if i > 0 { NonePending(table[1..], start, horizon, inFlight, i - 1); }
  }

  /** N orphaned rows all reach their outcome within 2 * ceil(N / 20) reconcile passes, whatever the
      pass times; every other row is left as it was. */
  lemma {:induction false} RecoveryBound(table: seq<Message>, nows: seq<nat>, start: nat, horizon: nat,
                                         inFlight: set<nat>)
    requires AllOrphaned(table, start, horizon, inFlight) && Ascending(nows, start, horizon) && start <= horizon
    requires |nows| >= 2 * ((Count(table, start) + BATCH_SIZE - 1) / BATCH_SIZE)
    ensures var t := Passes(table, nows, inFlight);
            && |t| == |table|
            && forall i :: 0 <= i < |table| ==>
                 t[i] == if Pending(table[i], start) then Outcome(table[i]) else table[i]
    decreases |nows|
  {
    var n := Count(table, start);
    if n == 0 {
      forall i | 0 <= i < |table| ensures !Pending(table[i], start) {
        NonePending(table, start, horizon, inFlight, i);
      }
      SettledStays(table, nows, start, horizon, inFlight);
    } else {
      assert nows[1..][0] == nows[1] && nows[1..][1..] == nows[2..];
      var two := Pass(Pass(table, BATCH_SIZE, nows[0], inFlight), BATCH_SIZE, nows[1], inFlight);
      Later(table, start, nows[0], horizon, inFlight);
      TwoPasses(table, BATCH_SIZE, BATCH_SIZE, nows[0], nows[1], horizon, inFlight);
      TwoPassesKeep(table, start, nows[0], nows[1], horizon, inFlight);
      RecoveryBound(two, nows[2..], nows[1], horizon, inFlight);
      assert Passes(table, nows, inFlight) == Passes(two, nows[2..], inFlight);
    }
  }

  /** Two passes keep every row on its way to its outcome. */
  lemma TwoPassesKeep(table: seq<Message>, start: nat, now: nat, later: nat, horizon: nat, inFlight: set<nat>)
    requires AllOrphaned(table, start, horizon, inFlight) && start <= now <= later <= horizon
    ensures var two := Pass(Pass(table, BATCH_SIZE, now, inFlight), BATCH_SIZE, later, inFlight);
            && AllOrphaned(two, later, horizon, inFlight)
            && forall i :: 0 <= i < |table| ==>
                 (if Pending(two[i], later) then Outcome(two[i]) else two[i])
                 == if Pending(table[i], start) then Outcome(table[i]) else table[i]
  {
    var one := Pass(table, BATCH_SIZE, now, inFlight);
    var two := Pass(one, BATCH_SIZE, later, inFlight);
    Later(table, start, now, horizon, inFlight);
    PassKeeps(table, BATCH_SIZE, now, horizon, inFlight);
    Later(one, now, later, horizon, inFlight);
    PassKeeps(one, BATCH_SIZE, later, horizon, inFlight);
    forall i | 0 <= i < |table|
      ensures (if Pending(two[i], later) then Outcome(two[i]) else two[i])
           == if Pending(table[i], start) then Outcome(table[i]) else table[i]
    {
      assert Orphaned(table[i], start, horizon, inFlight);
      assert Progress(table[i], one[i], now) && Orphaned(one[i], now, horizon, inFlight);
      assert Progress(one[i], two[i], later);
    }
  }

  lemma {:induction false} SettledStays(table: seq<Message>, nows: seq<nat>, start: nat, horizon: nat,
                                        inFlight: set<nat>)
    requires AllOrphaned(table, start, horizon, inFlight) && Ascending(nows, start, horizon) && start <= horizon
    requires forall i :: 0 <= i < |table| ==> !Pending(table[i], start)
    ensures Passes(table, nows, inFlight) == table
    decreases |nows|
  {
    if nows != [] {
      NothingToDo(table, BATCH_SIZE, start, nows[0], horizon, inFlight);
      Later(table, start, nows[0], horizon, inFlight);
      SettledStays(table, nows[1..], nows[0], horizon, inFlight);
    }
  }

  lemma {:induction false} NothingToDo(table: seq<Message>, limit: nat, start: nat, now: nat, horizon: nat,
                                       inFlight: set<nat>)
    requires AllOrphaned(table, start, horizon, inFlight) && start <= now <= horizon
    requires forall i :: 0 <= i < |table| ==> !Pending(table[i], start)
    ensures Pass(table, limit, now, inFlight) == table
    ensures forall i :: 0 <= i < |table| ==> !Pending(table[i], now)
  {
    if table != [] {
      assert Orphaned(table[0], start, horizon, inFlight) && !Pending(table[0], start);
      assert forall i :: 0 <= i < |table[1..]| ==> table[1..][i] == table[i + 1];
      NothingToDo(table[1..], limit, start, now, horizon, inFlight);
    }
  }
}
