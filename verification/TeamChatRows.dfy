/** The row of one inbound team-chat event and every guarded write the bridge makes to it.

    A guarded write is one `updateMany` of the original: it looks at the stored row, changes it
    only if the guard holds, and reports whether it won. Each is atomic. */
module TeamChatRows {
  import opened Wrappers

  const BATCH_SIZE: nat := 20
  const DEFERRED_RESERVATION_MS: nat := 120_000
  const ROUTING_RESERVATION_MS: nat := 1_800_000
  const QUEUE_RESERVATION_MS: nat := 120_000
  const DELIVERY_RESERVATION_MS: nat := 120_000

  datatype Status =
    | Deferred | Observed | Received | Queueing | Running | Delivering | Delivered | Ignored

  /** `engagementReason`: nothing, one of the three ownership marks, the mark of a finished routine
      wake, or free text from the ambient judge. */
  datatype Reason = NoReason | Routing | Rearmed | AgentOwned | RoutineWake | Judged(text: string)

  /** `providerReplyHandle`: what the provider returned, or one of the three literal marks. */
  datatype Handle = Provider(id: nat) | Unconfirmed | Silent | SilentFailure

  datatype Row = Row(
    status: Status,
    reason: Reason,
    lease: Option<nat>,        // nextAttemptAt
    runId: Option<nat>,
    handle: Option<Handle>)

  /** The stored row after a guarded write, and whether `count === 1`. */
  datatype Write = Write(row: Row, won: bool)

  predicate RoutingOwned(reason: Reason) { reason == Routing || reason == Rearmed }

  predicate OwnershipMark(reason: Reason) { RoutingOwned(reason) || reason == AgentOwned }

  /** `nextAttemptAt <= now`; a null lease never compares. */
  predicate Expired(row: Row, now: nat) { row.lease.Some? && row.lease.value <= now }

  predicate Due(row: Row, now: nat) { row.lease.None? || row.lease.value <= now }

  predicate Linked(status: Status) { status == Running || status == Delivering || status == Delivered }

  predicate Posted(status: Status) { status == Delivering || status == Delivered }

  function Guarded(row: Row, guard: bool, changed: Row): Write {
    if guard then Write(changed, true) else Write(row, false)
  }

  // ----- receive, heartbeat, resolve -----

  function NewDeferred(until: nat): Row { Row(Deferred, NoReason, Some(until), None, None) }

  function NewPlain(ambient: bool): Row {
    Row(if ambient then Observed else Received, NoReason, None, None, None)
  }

  function ClaimDeferred(row: Row, now: nat, until: nat): Write {
    Guarded(row,
            row.status == Received || row.status == Observed || (row.status == Deferred && Expired(row, now)),
            row.(status := Deferred, lease := Some(until)))
  }

  function ExtendDeferred(row: Row, clock: nat): Write {
    Guarded(row, row.status == Deferred,
            row.(reason := Routing, lease := Some(clock + ROUTING_RESERVATION_MS)))
  }

  function ResolveRoutine(row: Row): Write {
    Guarded(row, row.status == Deferred || row.status == Received || row.status == Observed,
            row.(status := Ignored, reason := RoutineWake, lease := None))
  }

  function ResolveAgent(row: Row, ambient: bool): Write {
    Guarded(row, row.status == Deferred,
            row.(status := if ambient then Observed else Received, reason := NoReason, lease := None))
  }

  /** The compare-and-set of `wakeMessageRoutines`. */
  function ReserveWake(row: Row, clock: nat): Write {
    Guarded(row,
            && (row.status == Deferred || row.status == Received || row.status == Observed)
            && (row.reason == NoReason || RoutingOwned(row.reason)),
            row.(reason := Routing, lease := Some(clock + ROUTING_RESERVATION_MS)))
  }

  // ----- recovery -----

  function IgnoreExpired(row: Row, now: nat): Write {
    Guarded(row, row.status == Deferred && Expired(row, now),
            row.(status := Ignored, reason := RoutineWake, lease := None))
  }

  function ClearExpiredRouting(row: Row, now: nat): Write {
    Guarded(row, row.status == Deferred && Expired(row, now) && RoutingOwned(row.reason),
            row.(reason := NoReason, lease := Some(now)))
  }

  function PromoteExpired(row: Row, now: nat, ambient: bool): Write {
    Guarded(row, row.status == Deferred && Expired(row, now) && !OwnershipMark(row.reason),
            row.(status := if ambient then Observed else Received, reason := NoReason, lease := None))
  }

  function ExpireQueueing(row: Row, now: nat): Write {
    Guarded(row, row.status == Queueing && Expired(row, now),
            row.(status := Received, reason := NoReason, lease := None))
  }

  // ----- ambient evaluation -----

  function PromoteAmbient(row: Row, reason: Reason): Write {
    Guarded(row, row.status == Observed, row.(status := Received, reason := reason))
  }

  function IgnoreAmbient(row: Row): Write {
    Guarded(row, row.status == Observed, row.(status := Ignored))
  }

  // ----- queue -----

  function ClaimQueueing(row: Row, clock: nat): Write {
    Guarded(row, row.status == Received && !OwnershipMark(row.reason),
            row.(status := Queueing, reason := AgentOwned, lease := Some(clock + QUEUE_RESERVATION_MS)))
  }

  function AbandonReceived(row: Row): Write {
    Guarded(row, row.status == Received,
            row.(status := Ignored, reason := RoutineWake, lease := None))
  }

  function AbandonQueueing(row: Row): Write {
    Guarded(row, row.status == Queueing && row.runId.None?,
            row.(status := Ignored, reason := RoutineWake, lease := None))
  }

  function LinkRun(row: Row, run: nat): Write {
    Guarded(row, row.status == Queueing && row.reason == AgentOwned,
            row.(status := Running, runId := Some(run), lease := None))
  }

  // ----- delivery -----

  function ReserveDelivery(row: Row, now: nat): Write {
    Guarded(row, row.status == Running && row.handle.None?,
            row.(status := Delivering, lease := Some(now + DELIVERY_RESERVATION_MS)))
  }

  function FinalizeUnconfirmed(row: Row, now: nat): Write {
    Guarded(row, row.status == Delivering && row.handle.None? && Due(row, now),
            row.(status := Delivered, handle := Some(Unconfirmed), lease := None))
  }

  /** Unguarded: `update` by id. */
  function RecordHandle(row: Row, handle: Handle): Row { row.(handle := Some(handle)) }

  /** Unguarded: `update` by id. */
  function MarkDelivered(row: Row, handle: Handle): Row {
    row.(status := Delivered, handle := Some(handle), lease := None)
  }

  /** The conditional write of `retry`, with the status it read before. */
  function RetryWrite(row: Row, read: Status, until: nat): Write {
    Guarded(row, row.handle.None? && row.status == read,
            if read == Queueing
            then row.(status := Received, reason := NoReason, lease := Some(until))
            else row.(lease := Some(until)))
  }
}
