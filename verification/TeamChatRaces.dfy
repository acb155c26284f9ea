/**
 Each condition of the ownership theorem is needed: for every hazard there is a run whose
 only departure from a careful run is that hazard, and which ends with the row linked to an
 agent run beside a delivered routine wake.
 */
module TeamChatRaces {
  import opened Common
  import opened TeamChatRow
  import opened TeamChatProtocol
  import opened TeamChatOwnership

  ghost predicate Reach(hazard: Hazard, s: System, t: System) {
    exists actions :: CarefulRun(s, actions, {hazard}) && Exec(s, actions) == Some(t)
  }

  lemma {:induction false} ExecThen(s: System, actions: seq<Action>, a: Action, hazard: Hazard)
    requires CarefulRun(s, actions, {hazard}) && Exec(s, actions).Some?
    requires Careful(Exec(s, actions).value, a, {hazard})
    ensures CarefulRun(s, actions + [a], {hazard})
    ensures Exec(s, actions + [a]) == Step(Exec(s, actions).value, a)
    decreases |actions|
  {
    if actions == [] {
      assert actions + [a] == [a];
      assert [a][1..] == [];
    } else {
      assert (actions + [a])[1..] == actions[1..] + [a];
      ExecThen(Step(s, actions[0]).value, actions[1..], a, hazard);
    }
  }

  lemma {:induction false} Go(hazard: Hazard, s: System, t: System, a: Action) returns (u: System)
    requires Reach(hazard, s, t) && Careful(t, a, {hazard}) && Step(t, a).Some?
    ensures Step(t, a) == Some(u) && Reach(hazard, s, u)
  {
    var actions :| CarefulRun(s, actions, {hazard}) && Exec(s, actions) == Some(t);
    ExecThen(s, actions, a, hazard);
    u := Step(t, a).value;
  }

  lemma {:induction false} Start(hazard: Hazard, s: System)
    ensures Reach(hazard, s, s)
  {
    assert Exec(s, []) == Some(s);
  }

  function ProcessOf(t: System, p: nat): Option<Process> {
    if p in t.processes then Some(t.processes[p]) else None
  }

  // Only the pass of p, the row and the runs differ.
  ghost predicate PassOnly(t: System, u: System, p: nat) {
    match (ProcessOf(t, p), ProcessOf(u, p))
    case (Some(before), Some(after)) =>
      && u.processes == t.processes[p := before.(pass := after.pass)]
      && (u.clock, u.ambient, WakeSent(u)) == (t.clock, t.ambient, WakeSent(t))
    case _ => false
  }

  lemma {:induction false} Reads(hazard: Hazard, s: System, t: System, p: nat, now: int, pc: PassPc, pick: bool, next: PassPc) returns (u: System)
    requires Reach(hazard, s, t) && (p == 0 || hazard.ManyProcesses?)
    requires p in t.processes && t.processes[p].pass == Busy(now, pc)
    requires !pc.CreateRun? && !pc.CancelRun? && RowMove(t, now, pc).None?
    requires ReadMove(t, t.processes[p], now, pc, pick) == Some(Busy(now, next))
    ensures Reach(hazard, s, u) && PassOnly(t, u, p) && u.row == t.row && u.processes[p].pass == Busy(now, next)
  {
    u := Go(hazard, s, t, Reconcile(p, Advance(pick)));
  }

  ghost predicate At(t: System, p: nat, now: int, pc: PassPc) {
    match ProcessOf(t, p)
    case Some(process) => process.pass == Busy(now, pc)
    case None => false
  }

  ghost predicate Claimable(row: Option<Row>, now: int) {
    match row
    case Some(r) => r.status.Received? && !Exclusive(r.reason) && Due(r, now)
    case None => false
  }

  ghost predicate ClaimedRow(row: Option<Row>) {
    match row
    case Some(r) => r.status.Queueing? && r.reason.Agent?
    case None => false
  }

  lemma {:induction false} PreClaims(hazard: Hazard, s: System, t: System, p: nat, now: int) returns (u: System)
    requires Reach(hazard, s, t) && (p == 0 || hazard.ManyProcesses?) && At(t, p, now, FindReceived)
    requires Claimable(t.row, now) && !WakeSent(t)
    ensures Reach(hazard, s, u) && PassOnly(t, u, p) && At(u, p, now, Claiming) && u.row == t.row
  {
    u := Reads(hazard, s, t, p, now, FindReceived, true, PreWake);
    u := Reads(hazard, s, u, p, now, PreWake, true, Claiming);
  }

  lemma {:induction false} Claims(hazard: Hazard, s: System, t: System, p: nat, now: int) returns (u: System)
    requires Reach(hazard, s, t) && (p == 0 || hazard.ManyProcesses?) && At(t, p, now, Claiming)
    requires Claimable(t.row, now) && !WakeSent(t)
    ensures Reach(hazard, s, u) && PassOnly(t, u, p) && At(u, p, now, PostWake) && ClaimedRow(u.row)
  {
    u := Go(hazard, s, t, Reconcile(p, Advance(true)));
  }

  lemma {:induction false} Rereads(hazard: Hazard, s: System, t: System, p: nat, now: int) returns (u: System)
    requires Reach(hazard, s, t) && (p == 0 || hazard.ManyProcesses?) && At(t, p, now, PostWake)
    requires ClaimedRow(t.row) && !WakeSent(t)
    ensures Reach(hazard, s, u) && PassOnly(t, u, p) && At(u, p, now, LastWake) && ClaimedRow(u.row)
  {
    u := Reads(hazard, s, t, p, now, PostWake, true, Latest);
    u := Reads(hazard, s, u, p, now, Latest, true, LastWake);
  }

  lemma {:induction false} LastReads(hazard: Hazard, s: System, t: System, p: nat, now: int) returns (u: System)
    requires Reach(hazard, s, t) && (p == 0 || hazard.ManyProcesses?) && At(t, p, now, LastWake) && !WakeSent(t)
    ensures Reach(hazard, s, u) && PassOnly(t, u, p) && At(u, p, now, CreateRun) && u.row == t.row
  {
    u := Reads(hazard, s, t, p, now, LastWake, true, CreateRun);
  }

  lemma {:induction false} FinalReads(hazard: Hazard, s: System, t: System, p: nat, now: int, run: nat) returns (u: System)
    requires Reach(hazard, s, t) && (p == 0 || hazard.ManyProcesses?) && At(t, p, now, FinalWake(run)) && !WakeSent(t)
    ensures Reach(hazard, s, u) && PassOnly(t, u, p) && At(u, p, now, Linking(run)) && u.row == t.row
  {
    u := Reads(hazard, s, t, p, now, FinalWake(run), true, Linking(run));
  }

  lemma {:induction false} Creates(hazard: Hazard, s: System, t: System, p: nat, now: int) returns (u: System, run: nat)
    requires Reach(hazard, s, t) && (p == 0 || hazard.ManyProcesses?) && At(t, p, now, CreateRun)
    requires ClaimedRow(t.row) && !WakeSent(t)
    ensures Reach(hazard, s, u) && PassOnly(t, u, p) && At(u, p, now, FinalWake(run)) && ClaimedRow(u.row)
  {
    run := RunFor(t, AgentNonce);
    u := Go(hazard, s, t, Reconcile(p, Advance(true)));
  }

  lemma {:induction false} Links(hazard: Hazard, s: System, t: System, p: nat, now: int, run: nat) returns (u: System)
    requires Reach(hazard, s, t) && (p == 0 || hazard.ManyProcesses?) && At(t, p, now, Linking(run))
    requires ClaimedRow(t.row) && !WakeSent(t)
    ensures Reach(hazard, s, u) && PassOnly(t, u, p) && IsLinked(u)
  {
    u := Go(hazard, s, t, Reconcile(p, Advance(true)));
  }

  // From FindReceived an unclaimed received row reaches its link.
  lemma {:induction false} QueueLinks(hazard: Hazard, s: System, t: System, p: nat, now: int) returns (u: System)
    requires Reach(hazard, s, t) && (p == 0 || hazard.ManyProcesses?) && At(t, p, now, FindReceived)
    requires Claimable(t.row, now) && !WakeSent(t)
    ensures Reach(hazard, s, u) && PassOnly(t, u, p) && IsLinked(u)
  {
    u := PreClaims(hazard, s, t, p, now);
    u := Claims(hazard, s, u, p, now);
    u := ClaimLinks(hazard, s, u, p, now);
  }

  lemma {:induction false} ClaimLinks(hazard: Hazard, s: System, t: System, p: nat, now: int) returns (u: System)
    requires Reach(hazard, s, t) && (p == 0 || hazard.ManyProcesses?) && At(t, p, now, PostWake)
    requires ClaimedRow(t.row) && !WakeSent(t)
    ensures Reach(hazard, s, u) && PassOnly(t, u, p) && IsLinked(u)
  {
    u := Rereads(hazard, s, t, p, now);
    u := LastReads(hazard, s, u, p, now);
    var run;
    u, run := Creates(hazard, s, u, p, now);
    u := FinalReads(hazard, s, u, p, now, run);
    u := Links(hazard, s, u, p, now, run);
  }

  // The part of a pass after deferred recovery, when nothing is queueing and no observed row is picked.
  lemma {:induction false} SkipsToReceived(hazard: Hazard, s: System, t: System, p: nat, now: int) returns (u: System)
    requires Reach(hazard, s, t) && (p == 0 || hazard.ManyProcesses?) && At(t, p, now, ReclaimQueueing)
    requires t.row.Some? && !t.row.value.status.Queueing?
    ensures Reach(hazard, s, u) && PassOnly(t, u, p) && u.row == t.row && At(u, p, now, FindReceived)
  {
    u := Go(hazard, s, t, Reconcile(p, Advance(true)));
    u := Reads(hazard, s, u, p, now, FindObserved, false, FindReceived);
  }

  // A pass begins, and its deferred recovery picks nothing.
  lemma {:induction false} PassToReceived(hazard: Hazard, s: System, t: System, p: nat) returns (u: System)
    requires Reach(hazard, s, t) && (p == 0 || hazard.ManyProcesses?)
    requires p in t.processes && t.processes[p].pass.Idle? && t.row.Some? && !t.row.value.status.Queueing?
    ensures Reach(hazard, s, u) && PassOnly(t, u, p) && u.row == t.row && At(u, p, t.clock, FindReceived)
  {
    u := Go(hazard, s, t, Reconcile(p, Begin));
    u := Reads(hazard, s, u, p, t.clock, FindExpired, false, ReclaimQueueing);
    u := SkipsToReceived(hazard, s, u, p, t.clock);
  }

  // A routine wake delivers whatever became of the row it reserved.
  lemma {:induction false} WakeDelivers(hazard: Hazard, s: System, t: System, h: nat) returns (u: System)
    requires Reach(hazard, s, t) && 0 in t.processes && t.processes[0].serving
    requires h in t.processes[0].handlers && HasWake(t.processes[0].handlers[h]) && WakeOf(t.processes[0].handlers[h]).DeliveringWake?
    requires IsLinked(t)
    ensures Reach(hazard, s, u) && WakeSent(u) && IsLinked(u)
  {
    u := Go(hazard, s, t, Handle(0, h, DeliverWake(true)));
  }

  // One idle process whose handlers are exactly `handlers`.
  ghost predicate Scene(t: System, clock: int, row: Option<Row>, handlers: map<nat, Handler>) {
    match ProcessOf(t, 0)
    case Some(process) =>
      && t.processes.Keys == {0}
      && (process.serving, process.pass, process.handlers, t.clock, t.row, WakeSent(t)) == (true, Idle, handlers, clock, row, false)
    case None => false
  }

  const HELD := Fresh(Deferred, Some(DEFERRED_RESERVATION_MS))
  const ROUTED := HELD.(reason := Routing, next := Some(ROUTING_RESERVATION_MS))

  lemma {:induction false} Boots(hazard: Hazard, ambient: bool) returns (u: System)
    ensures Reach(hazard, Init(ambient, 0), u) && u.ambient == ambient && Scene(u, 0, None, map[])
    ensures 0 in u.processes && !u.processes[0].inFlight
  {
    var s := Init(ambient, 0);
    Start(hazard, s);
    u := Go(hazard, s, s, Launch(0));
    u := Go(hazard, s, u, Serve(0));
  }

  // One step of handler h that changes the row and that handler only.
  lemma {:induction false} Acts(hazard: Hazard, s: System, t: System, clock: int, row: Option<Row>, handlers: map<nat, Handler>,
             h: nat, act: HandlerAction, row': Option<Row>, handler: Handler) returns (u: System)
    requires Reach(hazard, s, t) && Scene(t, clock, row, handlers)
    requires Careful(t, Handle(0, h, act), {hazard})
    requires Step(t, Handle(0, h, act)).Some? && Step(t, Handle(0, h, act)).value.ambient == t.ambient
    requires Scene(Step(t, Handle(0, h, act)).value, clock, row', handlers[h := handler])
    ensures Reach(hazard, s, u) && u.ambient == t.ambient && Scene(u, clock, row', handlers[h := handler])
    ensures Step(t, Handle(0, h, act)) == Some(u)
  {
    u := Go(hazard, s, t, Handle(0, h, act));
  }

  lemma {:induction false} Arrives(hazard: Hazard, s: System, t: System, clock: int, row: Option<Row>, handlers: map<nat, Handler>, h: nat)
    returns (u: System)
    requires Reach(hazard, s, t) && Scene(t, clock, row, handlers) && h !in handlers
    ensures Reach(hazard, s, u) && u.ambient == t.ambient && Scene(u, clock, row, handlers[h := Arrived(clock)])
    ensures 0 in u.processes && 0 in t.processes && u.processes[0].inFlight == t.processes[0].inFlight
  {
    u := Acts(hazard, s, t, clock, row, handlers, h, Arrive, row, Arrived(clock));
  }

  lemma {:induction false} Upserts(hazard: Hazard, s: System, t: System, row: Option<Row>, handlers: map<nat, Handler>, h: nat)
    returns (u: System)
    requires Reach(hazard, s, t) && Scene(t, 0, row, handlers) && h in handlers && handlers[h] == Arrived(0)
    requires row == None || row == Some(HELD)
    requires hazard.OverlappingClaims? || forall g :: g in handlers && g != h ==> !Claimed(handlers[g])
    ensures Reach(hazard, s, u) && u.ambient == t.ambient && Scene(u, 0, Some(HELD), handlers[h := Extending])
    ensures 0 in u.processes && 0 in t.processes && u.processes[0].inFlight == t.processes[0].inFlight
  {
    u := Acts(hazard, s, t, 0, row, handlers, h, Upsert, Some(HELD), Extending);
  }

  lemma {:induction false} Extends(hazard: Hazard, s: System, t: System, clock: int, row: Row, handlers: map<nat, Handler>, h: nat)
    returns (u: System)
    requires Reach(hazard, s, t) && Scene(t, clock, Some(row), handlers) && h in handlers && handlers[h] == Extending
    requires row.status.Deferred?
    ensures Reach(hazard, s, u) && u.ambient == t.ambient
    ensures Scene(u, clock, TeamChatRow.Extend(Some(row), clock).row, handlers[h := Extended])
    ensures 0 in u.processes && 0 in t.processes && u.processes[0].inFlight == t.processes[0].inFlight
  {
    u := Acts(hazard, s, t, clock, Some(row), handlers, h, ExtendLease, TeamChatRow.Extend(Some(row), clock).row, Extended);
  }

  lemma {:induction false} Marks(hazard: Hazard, s: System, t: System, clock: int, row: Option<Row>, handlers: map<nat, Handler>, h: nat)
    returns (u: System)
    requires Reach(hazard, s, t) && Scene(t, clock, row, handlers) && h in handlers && handlers[h] == Extended
    ensures Reach(hazard, s, u) && u.ambient == t.ambient
    ensures Scene(u, clock, row, handlers[h := Waking(Looking, Racing, Beating, clock)])
  {
    u := Acts(hazard, s, t, clock, row, handlers, h, MarkInFlight, row, Waking(Looking, Racing, Beating, clock));
  }

  lemma {:induction false} Finds(hazard: Hazard, s: System, t: System, clock: int, row: Option<Row>, handlers: map<nat, Handler>, h: nat, found: bool)
    returns (u: System)
    requires Reach(hazard, s, t) && Scene(t, clock, row, handlers)
    requires h in handlers && handlers[h] == Waking(Looking, Racing, Beating, clock)
    ensures Reach(hazard, s, u) && u.ambient == t.ambient
    ensures Scene(u, clock, row, handlers[h := Waking(if found then ReservingWake else Settled(NotWoken), Racing, Beating, clock)])
  {
    u := Acts(hazard, s, t, clock, row, handlers, h, FindRoutines(found), row,
              Waking(if found then ReservingWake else Settled(NotWoken), Racing, Beating, clock));
  }

  lemma {:induction false} Reserves(hazard: Hazard, s: System, t: System, clock: int, row: Row, handlers: map<nat, Handler>, h: nat)
    returns (u: System)
    requires Reach(hazard, s, t) && Scene(t, clock, Some(row), handlers)
    requires h in handlers && handlers[h] == Waking(ReservingWake, Racing, Beating, clock)
    requires TeamChatRow.ReserveWake(Some(row), clock).hit
    ensures Reach(hazard, s, u) && u.ambient == t.ambient
    ensures Scene(u, clock, TeamChatRow.ReserveWake(Some(row), clock).row, handlers[h := Waking(DeliveringWake, Racing, Beating, clock)])
  {
    u := Acts(hazard, s, t, clock, Some(row), handlers, h, ReserveWakeRow,
              TeamChatRow.ReserveWake(Some(row), clock).row, Waking(DeliveringWake, Racing, Beating, clock));
  }

  // A first delivery: handler 0 creates the row and extends its lease.
  lemma {:induction false} Receives(hazard: Hazard, ambient: bool) returns (u: System)
    ensures Reach(hazard, Init(ambient, 0), u) && u.ambient == ambient
    ensures Scene(u, 0, Some(ROUTED), map[0 := Extended])
    ensures 0 in u.processes && !u.processes[0].inFlight
  {
    var s := Init(ambient, 0);
    u := Boots(hazard, ambient);
    u := Arrives(hazard, s, u, 0, None, map[], 0);
    u := Upserts(hazard, s, u, None, map[0 := Arrived(0)], 0);
    assert u.processes[0].handlers == map[0 := Extending];
    u := Extends(hazard, s, u, 0, HELD, map[0 := Extending], 0);
    assert u.processes[0].handlers == map[0 := Extended];
  }

  // Handler 0, alone, starts its wake and reserves the row for it.
  lemma {:induction false} Wakes(hazard: Hazard, s: System, t: System, clock: int, row: Row) returns (u: System)
    requires Reach(hazard, s, t) && Scene(t, clock, Some(row), map[0 := Extended])
    requires TeamChatRow.ReserveWake(Some(row), clock).hit
    ensures Reach(hazard, s, u) && u.ambient == t.ambient
    ensures Scene(u, clock, TeamChatRow.ReserveWake(Some(row), clock).row, map[0 := Waking(DeliveringWake, Racing, Beating, clock)])
  {
    u := Marks(hazard, s, t, clock, Some(row), map[0 := Extended], 0);
    var marked: map<nat, Handler> := map[0 := Waking(Looking, Racing, Beating, clock)];
    assert u.processes[0].handlers == marked;
    u := Finds(hazard, s, u, clock, Some(row), marked, 0, true);
    var found: map<nat, Handler> := map[0 := Waking(ReservingWake, Racing, Beating, clock)];
    assert u.processes[0].handlers == found;
    u := Reserves(hazard, s, u, clock, row, found, 0);
    assert u.processes[0].handlers == map[0 := Waking(DeliveringWake, Racing, Beating, clock)];
  }

  // Handler h gives the row up to the agent.
  lemma {:induction false} Releases(hazard: Hazard, s: System, t: System, clock: int, row: Row, handlers: map<nat, Handler>, h: nat)
    returns (u: System)
    requires Reach(hazard, s, t) && Scene(t, clock, Some(row), handlers) && row.status.Deferred? && h in handlers
    requires handlers[h].Waking? && (handlers[h].main.ReleasingThrew? || handlers[h].main == Resolving(false))
    ensures Reach(hazard, s, u) && u.ambient == t.ambient
    ensures Scene(u, clock, TeamChatRow.ResolveAgent(Some(row), t.ambient).row, handlers[h := handlers[h].(main := Leaving)])
  {
    u := Acts(hazard, s, t, clock, Some(row), handlers, h, Release,
              TeamChatRow.ResolveAgent(Some(row), t.ambient).row, handlers[h].(main := Leaving));
  }

  lemma {:induction false} Breaks(s: System, t: System, handlers: map<nat, Handler>, waking: Handler) returns (u: System)
    requires Reach(RenewalThrows, s, t) && Scene(t, 0, Some(ROUTED), handlers)
    requires 0 in handlers && handlers[0] == waking && waking.Waking? && waking.beat.Beating?
    ensures Reach(RenewalThrows, s, u) && u.ambient == t.ambient
    ensures Scene(u, 0, Some(ROUTED), handlers[0 := waking.(beat := Broken)])
  {
    u := Acts(RenewalThrows, s, t, 0, Some(ROUTED), handlers, 0, HandlerAction.RenewThrows, Some(ROUTED), waking.(beat := Broken));
  }

  lemma {:induction false} SeesBroken(s: System, t: System, handlers: map<nat, Handler>, waking: Handler) returns (u: System)
    requires Reach(RenewalThrows, s, t) && Scene(t, 0, Some(ROUTED), handlers)
    requires 0 in handlers && handlers[0] == waking && waking.Waking? && waking.beat.Broken? && waking.main.Racing?
    ensures Reach(RenewalThrows, s, u) && u.ambient == t.ambient
    ensures Scene(u, 0, Some(ROUTED), handlers[0 := waking.(main := ReleasingThrew)])
  {
    u := Acts(RenewalThrows, s, t, 0, Some(ROUTED), handlers, 0, SeeBroken, Some(ROUTED), waking.(main := ReleasingThrew));
  }

  // A renewal that throws makes the handler release the row while the wake is outstanding.
  lemma {:induction false} RenewalRace() returns (t: System)
    ensures Reach(RenewalThrows, Init(false, 0), t) && WakeSent(t) && IsLinked(t)
  {
    var hz, s := RenewalThrows, Init(false, 0);
    t := Receives(hz, false);
    t := Wakes(hz, s, t, 0, ROUTED);
    var waking := Waking(DeliveringWake, Racing, Beating, 0);
    t := Breaks(s, t, map[0 := waking], waking);
    assert t.processes[0].handlers == map[0 := waking.(beat := Broken)];
    t := SeesBroken(s, t, map[0 := waking.(beat := Broken)], waking.(beat := Broken));
    assert t.processes[0].handlers == map[0 := Waking(DeliveringWake, ReleasingThrew, Broken, 0)];
    t := Releases(hz, s, t, 0, ROUTED, map[0 := Waking(DeliveringWake, ReleasingThrew, Broken, 0)], 0);
    t := PassToReceived(hz, s, t, 0);
    t := QueueLinks(hz, s, t, 0, 0);
    t := WakeDelivers(hz, s, t, 0);
  }

  // Two deliveries of the event in the same millisecond both take the row; one finds no routine
  // and releases it while the other's wake is reserved.
  lemma {:induction false} OverlapRace() returns (t: System)
    ensures Reach(OverlappingClaims, Init(false, 0), t) && WakeSent(t) && IsLinked(t)
  {
    var hz, s := OverlappingClaims, Init(false, 0);
    t := OverlapTakes();
    t := OverlapReserves(t);
    var waking := Waking(DeliveringWake, Racing, Beating, 0);
    var none := Waking(Settled(NotWoken), Racing, Beating, 0);
    t := Acts(hz, s, t, 0, Some(ROUTED), map[0 := waking, 1 := none], 1, SeeWake, Some(ROUTED), none.(main := Resolving(false)));
    assert t.processes[0].handlers == map[0 := waking, 1 := none.(main := Resolving(false))];
    t := Releases(hz, s, t, 0, ROUTED, map[0 := waking, 1 := none.(main := Resolving(false))], 1);
    t := PassToReceived(hz, s, t, 0);
    t := QueueLinks(hz, s, t, 0, 0);
    t := WakeDelivers(hz, s, t, 0);
  }

  // Both handlers have extended the lease.
  lemma {:induction false} OverlapTakes() returns (t: System)
    ensures Reach(OverlappingClaims, Init(false, 0), t) && !t.ambient
    ensures Scene(t, 0, Some(ROUTED), map[0 := Extended, 1 := Extended])
  {
    var hz, s := OverlappingClaims, Init(false, 0);
    t := Boots(hz, false);
    t := Arrives(hz, s, t, 0, None, map[], 0);
    t := Arrives(hz, s, t, 0, None, map[0 := Arrived(0)], 1);
    t := Upserts(hz, s, t, None, map[0 := Arrived(0), 1 := Arrived(0)], 0);
    assert t.processes[0].handlers == map[0 := Extending, 1 := Arrived(0)];
    t := Upserts(hz, s, t, Some(HELD), map[0 := Extending, 1 := Arrived(0)], 1);
    assert t.processes[0].handlers == map[0 := Extending, 1 := Extending];
    t := Extends(hz, s, t, 0, HELD, map[0 := Extending, 1 := Extending], 0);
    assert t.processes[0].handlers == map[0 := Extended, 1 := Extending];
    t := Extends(hz, s, t, 0, ROUTED, map[0 := Extended, 1 := Extending], 1);
    assert t.processes[0].handlers == map[0 := Extended, 1 := Extended];
  }

  // Handler 0 has reserved the row for its wake, handler 1 found no routine.
  lemma {:induction false} OverlapReserves(t: System) returns (u: System)
    requires Reach(OverlappingClaims, Init(false, 0), t) && Scene(t, 0, Some(ROUTED), map[0 := Extended, 1 := Extended])
    ensures Reach(OverlappingClaims, Init(false, 0), u) && u.ambient == t.ambient
    ensures Scene(u, 0, Some(ROUTED), map[0 := Waking(DeliveringWake, Racing, Beating, 0), 1 := Waking(Settled(NotWoken), Racing, Beating, 0)])
  {
    var hz, s := OverlappingClaims, Init(false, 0);
    var marked := Waking(Looking, Racing, Beating, 0);
    var found := Waking(ReservingWake, Racing, Beating, 0);
    var reserved := Waking(DeliveringWake, Racing, Beating, 0);
    u := Marks(hz, s, t, 0, Some(ROUTED), map[0 := Extended, 1 := Extended], 0);
    assert u.processes[0].handlers == map[0 := marked, 1 := Extended];
    u := Marks(hz, s, u, 0, Some(ROUTED), map[0 := marked, 1 := Extended], 1);
    assert u.processes[0].handlers == map[0 := marked, 1 := marked];
    u := Finds(hz, s, u, 0, Some(ROUTED), map[0 := marked, 1 := marked], 0, true);
    assert u.processes[0].handlers == map[0 := found, 1 := marked];
    u := Reserves(hz, s, u, 0, ROUTED, map[0 := found, 1 := marked], 0);
    assert u.processes[0].handlers == map[0 := reserved, 1 := marked];
    u := Finds(hz, s, u, 0, Some(ROUTED), map[0 := reserved, 1 := marked], 1, false);
    assert u.processes[0].handlers == map[0 := reserved, 1 := Waking(Settled(NotWoken), Racing, Beating, 0)];
  }

  // A pass picks the expired deferred row and finds no wake.
  lemma {:induction false} PassDecides(hazard: Hazard, s: System, t: System, p: nat, row: Row) returns (u: System)
    requires Reach(hazard, s, t) && (p == 0 || hazard.ManyProcesses?)
    requires p in t.processes && t.processes[p].pass.Idle? && t.row == Some(row) && !WakeSent(t)
    requires row.status.Deferred? && Expired(row, t.clock)
    ensures Reach(hazard, s, u) && PassOnly(t, u, p) && u.row == t.row && At(u, p, t.clock, ExpiredDecide(row.reason))
  {
    u := Go(hazard, s, t, Reconcile(p, Begin));
    u := Reads(hazard, s, u, p, t.clock, FindExpired, true, ExpiredWake(row.reason));
    u := Reads(hazard, s, u, p, t.clock, ExpiredWake(row.reason), true, ExpiredDecide(row.reason));
  }

  // Without a routing claim the row is promoted.
  lemma {:induction false} Promotes(hazard: Hazard, s: System, t: System, p: nat, row: Row) returns (u: System)
    requires Reach(hazard, s, t) && (p == 0 || hazard.ManyProcesses?) && At(t, p, t.clock, ExpiredDecide(row.reason))
    requires t.row == Some(row) && row.status.Deferred? && Expired(row, t.clock) && !Exclusive(row.reason)
    ensures Reach(hazard, s, u) && PassOnly(t, u, p) && At(u, p, t.clock, ReclaimQueueing)
    ensures u.row == Some(row.(status := Open(t.ambient), reason := NoReason, next := None))
  {
    u := Reads(hazard, s, t, p, t.clock, ExpiredDecide(row.reason), true, ExpiredPromote);
    u := Go(hazard, s, u, Reconcile(p, Advance(true)));
  }

  // With one, and no wake in flight here, the claim is dropped.
  lemma {:induction false} Orphans(hazard: Hazard, s: System, t: System, p: nat, row: Row) returns (u: System)
    requires Reach(hazard, s, t) && (p == 0 || hazard.ManyProcesses?) && At(t, p, t.clock, ExpiredDecide(row.reason))
    requires t.row == Some(row) && row.status.Deferred? && Expired(row, t.clock) && RoutingOwned(row.reason)
    requires !t.processes[p].inFlight
    ensures Reach(hazard, s, u) && PassOnly(t, u, p) && At(u, p, t.clock, ReclaimQueueing)
    ensures u.row == Some(row.(reason := NoReason, next := Some(t.clock)))
  {
    u := Reads(hazard, s, t, p, t.clock, ExpiredDecide(row.reason), true, ExpiredRelease);
    u := Go(hazard, s, u, Reconcile(p, Advance(true)));
  }

  // The rest of a pass that picks nothing more.
  lemma {:induction false} PassEnds(hazard: Hazard, s: System, t: System, p: nat, now: int) returns (u: System)
    requires Reach(hazard, s, t) && (p == 0 || hazard.ManyProcesses?) && At(t, p, now, ReclaimQueueing)
    requires t.row.Some? && !t.row.value.status.Queueing?
    ensures Reach(hazard, s, u) && PassOnly(t, u, p) && u.row == t.row && u.processes[p].pass.Idle?
  {
    u := SkipsToReceived(hazard, s, t, p, now);
    u := Reads(hazard, s, u, p, now, FindReceived, false, FindLinked);
    u := Idles(hazard, s, u, p, now);
  }

  lemma {:induction false} Idles(hazard: Hazard, s: System, t: System, p: nat, now: int) returns (u: System)
    requires Reach(hazard, s, t) && (p == 0 || hazard.ManyProcesses?) && At(t, p, now, FindLinked)
    ensures Reach(hazard, s, u) && PassOnly(t, u, p) && u.row == t.row && u.processes[p].pass.Idle?
  {
    u := Go(hazard, s, t, Reconcile(p, Advance(false)));
  }

  lemma {:induction false} ObservedPicked(hazard: Hazard, s: System, t: System, p: nat, now: int) returns (u: System)
    requires Reach(hazard, s, t) && (p == 0 || hazard.ManyProcesses?) && At(t, p, now, ReclaimQueueing)
    requires t.row.Some? && t.row.value.status.Observed?
    ensures Reach(hazard, s, u) && PassOnly(t, u, p) && u.row == t.row && At(u, p, now, Judging)
  {
    u := Go(hazard, s, t, Reconcile(p, Advance(true)));
    u := Reads(hazard, s, u, p, now, FindObserved, true, Judging);
  }

  // The judge promotes an observed row.
  lemma {:induction false} JudgePromotes(s: System, t: System, row: Row) returns (u: System)
    requires Reach(JudgeOverRouting, s, t) && 0 in t.processes && t.processes[0].pass.Idle?
    requires t.row == Some(row) && row.status.Observed?
    ensures Reach(JudgeOverRouting, s, u) && PassOnly(t, u, 0) && At(u, 0, t.clock, FindReceived)
    ensures u.row == Some(row.(status := Received, reason := Judged))
  {
    u := Go(JudgeOverRouting, s, t, Reconcile(0, Begin));
    u := Reads(JudgeOverRouting, s, u, 0, t.clock, FindExpired, false, ReclaimQueueing);
    u := ObservedPicked(JudgeOverRouting, s, u, 0, t.clock);
    u := JudgeActsOn(s, u, row, t.clock);
  }

  lemma {:induction false} JudgeActsOn(s: System, t: System, row: Row, now: int) returns (u: System)
    requires Reach(JudgeOverRouting, s, t) && At(t, 0, now, Judging) && t.row == Some(row) && row.status.Observed?
    ensures Reach(JudgeOverRouting, s, u) && PassOnly(t, u, 0) && At(u, 0, now, FindReceived)
    ensures u.row == Some(row.(status := Received, reason := Judged))
  {
    u := Go(JudgeOverRouting, s, t, Reconcile(0, JudgeActs(Judged)));
    u := Go(JudgeOverRouting, s, u, Reconcile(0, Advance(true)));
  }

  // The first lease runs out between the extension and the in-flight mark, so the row is released
  // and observed again before the wake reserves it.
  lemma {:induction false} LateMark() returns (t: System)
    ensures Reach(JudgeOverRouting, Init(true, 0), t) && t.ambient
    ensures Scene(t, ROUTING_RESERVATION_MS, Some(Fresh(Observed, None)), map[0 := Extended])
  {
    var hz, s, late := JudgeOverRouting, Init(true, 0), ROUTING_RESERVATION_MS;
    t := Receives(hz, true);
    t := Go(hz, s, t, Tick(late));
    t := PassDecides(hz, s, t, 0, ROUTED);
    t := Orphans(hz, s, t, 0, ROUTED);
    t := PassEnds(hz, s, t, 0, late);
    t := PassDecides(hz, s, t, 0, Fresh(Deferred, Some(late)));
    t := Promotes(hz, s, t, 0, Fresh(Deferred, Some(late)));
    t := PassEnds(hz, s, t, 0, late);
  }

  // The judge promotes the row a wake has reserved, which drops the routing claim.
  lemma {:induction false} JudgeRace() returns (t: System)
    ensures Reach(JudgeOverRouting, Init(true, 0), t) && WakeSent(t) && IsLinked(t)
  {
    var hz, s, late := JudgeOverRouting, Init(true, 0), ROUTING_RESERVATION_MS;
    t := LateMark();
    t := Wakes(hz, s, t, late, Fresh(Observed, None));
    var routed := Row(Observed, Routing, Some(2 * late), None, None);
    t := Go(hz, s, t, Tick(2 * late));
    t := JudgePromotes(s, t, routed);
    t := QueueLinks(hz, s, t, 0, 2 * late);
    t := WakeDelivers(hz, s, t, 0);
  }

  // A second process does not see the in-flight mark of the first and releases its expired claim.
  lemma {:induction false} ProcessRace() returns (t: System)
    ensures Reach(ManyProcesses, Init(false, 0), t) && WakeSent(t) && IsLinked(t)
  {
    var hz, s, late := ManyProcesses, Init(false, 0), ROUTING_RESERVATION_MS;
    t := Receives(hz, false);
    t := Wakes(hz, s, t, 0, ROUTED);
    t := Go(hz, s, t, Tick(late));
    t := Go(hz, s, t, Launch(1));
    t := Go(hz, s, t, BootRelease(1));
    var freed := Fresh(Deferred, Some(late));
    t := PassDecides(hz, s, t, 1, freed);
    t := Promotes(hz, s, t, 1, freed);
    t := SkipsToReceived(hz, s, t, 1, late);
    t := QueueLinks(hz, s, t, 1, late);
    t := WakeDelivers(hz, s, t, 0);
  }

  /** None of the four conditions of OwnershipExclusion can be dropped. */
  lemma {:induction false} EveryConditionIsNeeded(hazard: Hazard)
    ensures
      exists ambient, actions ::
        && CarefulRun(Init(ambient, 0), actions, {hazard})
        && Exec(Init(ambient, 0), actions).Some?
        && WakeSent(Exec(Init(ambient, 0), actions).value)
        && IsLinked(Exec(Init(ambient, 0), actions).value)
  {
    var t: System, ambient: bool;
    match hazard {
      case RenewalThrows => t := RenewalRace(); ambient := false;
      case OverlappingClaims => t := OverlapRace(); ambient := false;
      case JudgeOverRouting => t := JudgeRace(); ambient := true;
      case ManyProcesses => t := ProcessRace(); ambient := false;
    }
    var actions :| CarefulRun(Init(ambient, 0), actions, {hazard}) && Exec(Init(ambient, 0), actions) == Some(t);
  }

  // Runs that show no hazard outside `allowed` never end with a linked row and a wake message.
  ghost predicate Excludes(allowed: set<Hazard>) {
    forall ambient, clock, actions :: Exec(Init(ambient, clock), actions).Some? && CarefulRun(Init(ambient, clock), actions, allowed)
      ==> !AnsweredTwice(Exec(Init(ambient, clock), actions).value)
  }

  predicate AnsweredTwice(s: System) {
    WakeSent(s) && IsLinked(s)
  }

  lemma {:induction false} MoreAllowed(s: System, actions: seq<Action>, hazard: Hazard, allowed: set<Hazard>)
    requires CarefulRun(s, actions, {hazard}) && hazard in allowed
    ensures CarefulRun(s, actions, allowed)
    decreases |actions|
  {
    if actions != [] && Step(s, actions[0]).Some? {
      MoreAllowed(Step(s, actions[0]).value, actions[1..], hazard, allowed);
    }
  }

  /** Exclusion holds for the runs that show only the hazards in a set exactly when the set is empty. */
  lemma {:induction false} ExclusionExactly(allowed: set<Hazard>)
    ensures Excludes(allowed) <==> allowed == {}
  {
    if allowed == {} {
      forall ambient, clock, actions | Exec(Init(ambient, clock), actions).Some? && CarefulRun(Init(ambient, clock), actions, allowed)
        ensures !AnsweredTwice(Exec(Init(ambient, clock), actions).value)
      {
        OwnershipExclusion(ambient, clock, actions);
      }
    } else {
      var hazard :| hazard in allowed;
      EveryConditionIsNeeded(hazard);
      var ambient, actions :| CarefulRun(Init(ambient, 0), actions, {hazard}) && Exec(Init(ambient, 0), actions).Some?
        && WakeSent(Exec(Init(ambient, 0), actions).value) && IsLinked(Exec(Init(ambient, 0), actions).value);
      MoreAllowed(Init(ambient, 0), actions, hazard, allowed);
      assert AnsweredTwice(Exec(Init(ambient, 0), actions).value);
    }
  }
}
