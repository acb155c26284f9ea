/**
 The row of one external chat message and the guarded updates the bridge, the inbound
 handler and the routine wake apply to it. Every `updateMany` is one function from the
 stored row to the row it leaves plus the flag `hit`, which is `count === 1`.
 */
module TeamChatRow {
  import opened Common

  datatype Status = Deferred | Observed | Received | Queueing | Running | Delivering | Delivered | Ignored

  // engagementReason: the two routing reasons and the agent reason are ownership claims,
  // Judged stands for the free text the ambient judge stores.
  datatype Reason = NoReason | Routing | Rearmed | Agent | RoutineWake | Judged

  datatype Row = Row(status: Status, reason: Reason, next: Option<int>, runId: Option<nat>, handle: Option<string>)

  datatype Cas = Cas(row: Option<Row>, hit: bool)

  const DEFERRED_RESERVATION_MS := 120_000
  const ROUTING_RESERVATION_MS := 1_800_000
  const QUEUE_RESERVATION_MS := 120_000
  const DELIVERY_RESERVATION_MS := 120_000

  predicate RoutingOwned(reason: Reason) {
    reason.Routing? || reason.Rearmed?
  }

  predicate Exclusive(reason: Reason) {
    RoutingOwned(reason) || reason.Agent?
  }

  predicate Linked(status: Status) {
    status.Running? || status.Delivering? || status.Delivered?
  }

  // `nextAttemptAt: { lte: now }`, false on a null column.
  predicate Expired(row: Row, now: int) {
    row.next.Some? && row.next.value <= now
  }

  predicate Due(row: Row, now: int) {
    row.next.None? || row.next.value <= now
  }

  function Open(ambient: bool): Status {
    if ambient then Observed else Received
  }

  function Fresh(status: Status, next: Option<int>): Row {
    Row(status, NoReason, next, None, None)
  }

  function Guarded(row: Option<Row>, hit: bool, updated: Row): Cas {
    if hit then Cas(Some(updated), true) else Cas(row, false)
  }

  // receive(..., { queueAgent: false })
  function TakeDeferred(row: Option<Row>, now: int): Cas {
    if row.None? then Cas(row, false) else
    var r := row.value;
    Guarded(row, r.status.Received? || r.status.Observed? || (r.status.Deferred? && Expired(r, now)),
            r.(status := Deferred, next := Some(now + DEFERRED_RESERVATION_MS)))
  }

  // extendDeferredReservation
  function Extend(row: Option<Row>, now: int): Cas {
    if row.None? then Cas(row, false) else
    Guarded(row, row.value.status.Deferred?,
            row.value.(reason := Routing, next := Some(now + ROUTING_RESERVATION_MS)))
  }

  // resolveDeferredMessage
  function ResolveRoutine(row: Option<Row>): Cas {
    if row.None? then Cas(row, false) else
    var r := row.value;
    Guarded(row, r.status.Deferred? || r.status.Received? || r.status.Observed?,
            r.(status := Ignored, reason := RoutineWake, next := None))
  }

  function ResolveAgent(row: Option<Row>, ambient: bool): Cas {
    if row.None? then Cas(row, false) else
    Guarded(row, row.value.status.Deferred?,
            row.value.(status := Open(ambient), reason := NoReason, next := None))
  }

  // wakeMessageRoutines
  function ReserveWake(row: Option<Row>, now: int): Cas {
    if row.None? then Cas(row, false) else
    var r := row.value;
    Guarded(row, (r.status.Deferred? || r.status.Received? || r.status.Observed?) && (r.reason.NoReason? || RoutingOwned(r.reason)),
            r.(reason := Routing, next := Some(now + ROUTING_RESERVATION_MS)))
  }

  // recoverInterruptedRoutineRoutes, and the orphan branch of recoverExpiredDeferredMessages
  function ReleaseRouting(row: Option<Row>, now: int): Cas {
    if row.None? then Cas(row, false) else
    var r := row.value;
    Guarded(row, r.status.Deferred? && RoutingOwned(r.reason) && Expired(r, now),
            r.(reason := NoReason, next := Some(now)))
  }

  function IgnoreExpired(row: Option<Row>, now: int): Cas {
    if row.None? then Cas(row, false) else
    var r := row.value;
    Guarded(row, r.status.Deferred? && Expired(r, now),
            r.(status := Ignored, reason := RoutineWake, next := None))
  }

  function PromoteExpired(row: Option<Row>, now: int, ambient: bool): Cas {
    if row.None? then Cas(row, false) else
    var r := row.value;
    Guarded(row, r.status.Deferred? && Expired(r, now) && !Exclusive(r.reason),
            r.(status := Open(ambient), reason := NoReason, next := None))
  }

  // reconcile: expired queue reservations
  function ExpireQueueing(row: Option<Row>, now: int): Cas {
    if row.None? then Cas(row, false) else
    Guarded(row, row.value.status.Queueing? && Expired(row.value, now),
            row.value.(status := Received, reason := NoReason, next := None))
  }

  // promoteAmbientTrigger; `reason` is the judge's text or null
  function PromoteTrigger(row: Option<Row>, reason: Reason): Cas {
    if row.None? then Cas(row, false) else
    Guarded(row, row.value.status.Observed?, row.value.(status := Received, reason := reason))
  }

  // markAmbientIgnored
  function IgnoreAmbient(row: Option<Row>): Cas {
    if row.None? then Cas(row, false) else
    Guarded(row, row.value.status.Observed?, row.value.(status := Ignored))
  }

  // abandonForRoutine("queueing") when `claimed`, else abandonForRoutine("received")
  function Abandon(row: Option<Row>, claimed: bool): Cas {
    if row.None? then Cas(row, false) else
    var r := row.value;
    Guarded(row, if claimed then r.status.Queueing? && r.runId.None? else r.status.Received?,
            r.(status := Ignored, reason := RoutineWake, next := None))
  }

  // queue: claim
  function ClaimQueue(row: Option<Row>, now: int): Cas {
    if row.None? then Cas(row, false) else
    var r := row.value;
    Guarded(row, r.status.Received? && !Exclusive(r.reason),
            r.(status := Queueing, reason := Agent, next := Some(now + QUEUE_RESERVATION_MS)))
  }

  // queue: link
  function LinkRun(row: Option<Row>, run: nat): Cas {
    if row.None? then Cas(row, false) else
    var r := row.value;
    Guarded(row, r.status.Queueing? && r.reason.Agent?,
            r.(status := Running, runId := Some(run), next := None))
  }

  // reserveDelivery
  function ReserveDelivery(row: Option<Row>, now: int): Cas {
    if row.None? then Cas(row, false) else
    var r := row.value;
    Guarded(row, r.status.Running? && r.handle.None?,
            r.(status := Delivering, next := Some(now + DELIVERY_RESERVATION_MS)))
  }

  function GiveUpDelivery(row: Option<Row>, now: int): Cas {
    if row.None? then Cas(row, false) else
    var r := row.value;
    Guarded(row, r.status.Delivering? && r.handle.None? && Due(r, now),
            r.(status := Delivered, handle := Some("unconfirmed"), next := None))
  }

  // sendOnce and markDelivered write by id alone
  function StoreHandle(row: Option<Row>, handle: string): Option<Row> {
    if row.None? then None else Some(row.value.(handle := Some(handle)))
  }

  function MarkDelivered(row: Option<Row>, handle: string): Option<Row> {
    if row.None? then None else Some(row.value.(status := Delivered, handle := Some(handle), next := None))
  }

  function Pow2(n: nat): (r: nat)
    ensures 1 <= r
  {
    if n == 0 then 1 else 2 * Pow2(n - 1)
  }

  function RetryDelay(attempts: nat): (delay: int)
    ensures 1_000 <= delay <= 60_000
  {
    var delay := 1_000 * Pow2(if attempts < 6 then attempts else 6);
    if delay < 60_000 then delay else 60_000
  }

  // retry: the write keyed on the status read before it
  function RetryWrite(row: Option<Row>, seen: Status, now: int, attempts: nat): Cas {
    if row.None? then Cas(row, false) else
    var r := row.value;
    Guarded(row, r.handle.None? && r.status == seen,
            r.(status := if seen.Queueing? then Received else seen,
               reason := if seen.Queueing? then NoReason else r.reason,
               next := Some(now + RetryDelay(attempts))))
  }
}
