/**
 Ownership exclusion: an event answered by a linked agent run was not also delivered to a
 message routine. It holds over every run, crashes and restarts included, that shows none of
 four hazards (a second process is one), and TeamChatRaces shows that each of them breaks it.
 */
module TeamChatOwnership {
  import opened Common
  import opened TeamChatRow
  import opened TeamChatProtocol
  import opened TeamChatDelivery

  // A second inbound handler takes the deferred row while another one holds it.
  predicate SecondClaim(s: System, a: Action) {
    && a.Handle? && (a.act.Upsert? || a.act.Take?)
    && a.p in s.processes
    && Step(s, a).Some?
    && var handlers := Step(s, a).value.processes[a.p].handlers;
    && a.h in handlers && Claimed(handlers[a.h])
    && exists g :: g in handlers && g != a.h && Claimed(handlers[g])
  }

  // promoteAmbientTrigger guards on the status alone, so it can take a row that a routine wake reserved.
  predicate JudgeTakesRouted(s: System, a: Action) {
    && a.Reconcile? && a.move.Advance? && a.p in s.processes
    && s.processes[a.p].pass.Busy? && s.processes[a.p].pass.pc.Promoting?
    && s.row.Some? && s.row.value.status.Observed? && RoutingOwned(s.row.value.reason)
  }

  // A lease renewal rejects with an error other than the lost reservation.
  predicate RenewalThrew(a: Action) {
    a.Handle? && a.act.RenewThrows?
  }

  predicate OneProcess(a: Action) {
    match a
    case Tick(_) => true
    case RunEnds(_, _) => true
    case Crash(p) => p == 0
    case Launch(p) => p == 0
    case BootRelease(p) => p == 0
    case Serve(p) => p == 0
    case PlainReceive(p) => p == 0
    case StrayRenew(p) => p == 0
    case Handle(p, _, _) => p == 0
    case Reconcile(p, _) => p == 0
  }

  datatype Hazard = RenewalThrows | OverlappingClaims | JudgeOverRouting | ManyProcesses

  // The step shows none of the hazards outside `allowed`.
  predicate Careful(s: System, a: Action, allowed: set<Hazard>) {
    && (OneProcess(a) || ManyProcesses in allowed)
    && (RenewalThrew(a) ==> RenewalThrows in allowed)
    && (SecondClaim(s, a) ==> OverlappingClaims in allowed)
    && (JudgeTakesRouted(s, a) ==> JudgeOverRouting in allowed)
  }

  predicate CarefulRun(s: System, actions: seq<Action>, allowed: set<Hazard>)
    decreases |actions|
  {
    actions == [] ||
    (Careful(s, actions[0], allowed)
     && (Step(s, actions[0]).Some? ==> CarefulRun(Step(s, actions[0]).value, actions[1..], allowed)))
  }

  // The pass holds the agent claim on the row.
  predicate HoldsClaim(pc: PassPc) {
    pc.PostWake? || pc.Latest? || pc.LastWake? || pc.CreateRun? || HoldsRun(pc)
  }

  // What a wake between its reservation and its delivery relies on.
  ghost predicate Reserved(row: Option<Row>, markedAt: int) {
    && row.Some? && row.value.runId.None?
    && (row.value.status.Deferred? || row.value.status.Received? || row.value.status.Observed? || row.value.status.Ignored?)
    && (!row.value.status.Ignored? ==> RoutingOwned(row.value.reason))
    && (row.value.status.Deferred? ==> row.value.next.Some? && markedAt < row.value.next.value)
  }

  ghost predicate PassOwns(s: System, pass: Pass) {
    pass.Busy? ==>
      && pass.now <= s.clock
      && (HoldsClaim(pass.pc) ==> s.row.Some? && s.row.value.status.Queueing? && s.row.value.reason.Agent?)
      && (pass.pc.Linking? ==> !WakeSent(s))
  }

  ghost predicate HandlerOwns(s: System, process: Process, handler: Handler) {
    && !handler.Stray?
    && (handler.Waking? ==>
          && process.inFlight
          && handler.markedAt <= s.clock
          && !handler.beat.Broken?
          && (!handler.wake.Settled? ==> handler.main.Racing? || handler.main.Holding? || handler.main.Awaiting?)
          && (process.pass.Busy? && process.pass.pc.ExpiredRelease? ==> process.pass.now <= handler.markedAt)
          && (handler.wake.DeliveringWake? ==> Reserved(s.row, handler.markedAt)))
  }

  ghost predicate ProcessOwns(s: System, process: Process) {
    && (!process.serving ==> process.handlers == map[])
    && PassOwns(s, process.pass)
    && (forall h, g | h in process.handlers && g in process.handlers :: Claimed(process.handlers[h]) && Claimed(process.handlers[g]) ==> h == g)
    && (forall h :: h in process.handlers ==> HandlerOwns(s, process, process.handlers[h]))
  }

  ghost predicate Owned(s: System) {
    && RowInv(s.row)
    && s.processes.Keys <= {0}
    && (0 in s.processes ==> ProcessOwns(s, s.processes[0]))
    && !(WakeSent(s) && IsLinked(s))
  }

  // ---- handlers

  lemma {:induction false} UpsertOwns(s: System, h: nat)
    requires Owned(s) && 0 in s.processes && s.processes[0].serving && ReceiveStep(s, 0, h, Upsert).Some?
    requires !SecondClaim(s, Handle(0, h, Upsert))
    ensures Owned(ReceiveStep(s, 0, h, Upsert).value)
  {
    assert Step(s, Handle(0, h, Upsert)) == ReceiveStep(s, 0, h, Upsert);
  }

  lemma {:induction false} TakeOwns(s: System, h: nat)
    requires Owned(s) && 0 in s.processes && s.processes[0].serving && ReceiveStep(s, 0, h, Take).Some?
    requires !SecondClaim(s, Handle(0, h, Take))
    ensures Owned(ReceiveStep(s, 0, h, Take).value)
  {
    assert Step(s, Handle(0, h, Take)) == ReceiveStep(s, 0, h, Take);
  }

  lemma {:induction false} ExtendOwns(s: System, h: nat)
    requires Owned(s) && 0 in s.processes && s.processes[0].serving && ReceiveStep(s, 0, h, ExtendLease).Some?
    ensures Owned(ReceiveStep(s, 0, h, ExtendLease).value)
  {
  }

  lemma {:induction false} ReceiveOwns(s: System, h: nat, act: HandlerAction)
    requires Owned(s) && 0 in s.processes && s.processes[0].serving && ReceiveStep(s, 0, h, act).Some?
    requires !act.Upsert? && !act.Take?
    ensures Owned(ReceiveStep(s, 0, h, act).value)
  {
    if act.ExtendLease? {
      ExtendOwns(s, h);
    }
  }

  lemma {:induction false} WakeOwns(s: System, h: nat, act: HandlerAction)
    requires Owned(s) && 0 in s.processes && s.processes[0].serving && WakeStep(s, 0, h, act).Some?
    ensures Owned(WakeStep(s, 0, h, act).value)
  {
  }

  lemma {:induction false} ReleaseOwns(s: System, h: nat)
    requires Owned(s) && 0 in s.processes && s.processes[0].serving && MainStep(s, 0, h, Release).Some?
    ensures Owned(MainStep(s, 0, h, Release).value)
  {
    assert HandlerOwns(s, s.processes[0], s.processes[0].handlers[h]);
  }

  lemma {:induction false} RenewOwns(s: System, h: nat, act: HandlerAction)
    requires Owned(s) && 0 in s.processes && s.processes[0].serving && MainStep(s, 0, h, act).Some? && (act.Renew? || act.Rehold?)
    ensures Owned(MainStep(s, 0, h, act).value)
  {
    assert HandlerOwns(s, s.processes[0], s.processes[0].handlers[h]);
  }

  lemma {:induction false} MainOwns(s: System, h: nat, act: HandlerAction)
    requires Owned(s) && 0 in s.processes && s.processes[0].serving && MainStep(s, 0, h, act).Some? && !act.RenewThrows?
    ensures Owned(MainStep(s, 0, h, act).value)
  {
    if act.Release? {
      ReleaseOwns(s, h);
    } else if act.Renew? || act.Rehold? {
      RenewOwns(s, h, act);
    } else {
      assert HandlerOwns(s, s.processes[0], s.processes[0].handlers[h]);
      assert MainStep(s, 0, h, act).value.row == s.row;
    }
  }

  // ---- the reconcile pass

  lemma {:induction false} WriteReserved(s: System, now: int, pc: PassPc, markedAt: int)
    requires RowMove(s, now, pc).Some? && Reserved(s.row, markedAt) && !IsLinked(s)
    requires !HoldsClaim(pc) && !NeedsLinked(pc)
    requires pc.ExpiredRelease? ==> now <= markedAt
    requires pc.Promoting? ==> !(s.row.value.status.Observed? && RoutingOwned(s.row.value.reason))
    ensures Reserved(RowMove(s, now, pc).value.0, markedAt)
  {
  }

  lemma {:induction false} WriteOwns(s: System, now: int, pc: PassPc)
    requires PassOwns(s, Busy(now, pc)) && RowMove(s, now, pc).Some?
    ensures PassOwns(s.(row := RowMove(s, now, pc).value.0), RowMove(s, now, pc).value.1)
  {
  }

  lemma {:induction false} ReadOwns(s: System, process: Process, now: int, pc: PassPc, pick: bool)
    requires PassOwns(s, Busy(now, pc)) && ReadMove(s, process, now, pc, pick).Some?
    ensures PassOwns(s, ReadMove(s, process, now, pc, pick).value)
    ensures
      var pass := ReadMove(s, process, now, pc, pick).value;
      pass.Busy? ==> pass.now == now && (pass.pc.ExpiredRelease? ==> !process.inFlight)
  {
  }

  // A step of the pass leaves handlers, clock and in-flight mark alone.
  ghost predicate PassStepOf(s: System, t: System)
    requires 0 in s.processes
  {
    && 0 in t.processes && t.processes.Keys == s.processes.Keys
    && t.processes[0] == s.processes[0].(pass := t.processes[0].pass)
    && t.clock == s.clock && WakeSent(t) == WakeSent(s)
  }

  lemma {:induction false} PassFrame(s: System, t: System)
    requires Owned(s) && 0 in s.processes && PassStepOf(s, t)
    requires RowInv(t.row) && PassOwns(t, t.processes[0].pass) && !(WakeSent(t) && IsLinked(t))
    requires t.processes[0].pass.Busy? && t.processes[0].pass.pc.ExpiredRelease? ==> !s.processes[0].inFlight
    requires forall m | m <= s.clock && Reserved(s.row, m) && (s.processes[0].pass.Busy? && s.processes[0].pass.pc.ExpiredRelease? ==> s.processes[0].pass.now <= m) :: Reserved(t.row, m)
    ensures Owned(t)
  {
    forall h | h in t.processes[0].handlers
      ensures HandlerOwns(t, t.processes[0], t.processes[0].handlers[h])
    {
      assert HandlerOwns(s, s.processes[0], s.processes[0].handlers[h]);
    }
  }

  lemma {:induction false} WriteNeeds(s: System, now: int, pc: PassPc)
    requires Inv(s) && Owned(s) && 0 in s.processes && s.processes[0].pass == Busy(now, pc)
    ensures HoldsClaim(pc) ==> s.row.Some? && s.row.value.status.Queueing?
    ensures NeedsLinked(pc) ==> IsLinked(s)
  {
    assert PassInv(s, s.processes[0].pass) && PassOwns(s, s.processes[0].pass);
  }

  lemma {:induction false} WriteLinks(s: System, now: int, pc: PassPc)
    requires RowInv(s.row) && RowMove(s, now, pc).Some?
    ensures
      var (row, pass) := RowMove(s, now, pc).value;
      && (IsLinked(s.(row := row)) ==> IsLinked(s) || pc.Linking?)
      && WakeSent(s.(row := row)) == WakeSent(s)
      && (pass.Busy? ==> !pass.pc.ExpiredRelease?)
  {
  }

  lemma {:induction false} WriteExcludes(s: System, now: int, pc: PassPc)
    requires Inv(s) && Owned(s) && 0 in s.processes && s.processes[0].pass == Busy(now, pc) && RowMove(s, now, pc).Some?
    ensures
      var (row, pass) := RowMove(s, now, pc).value;
      var t := s.(row := row);
      && RowInv(row) && PassOwns(t, pass) && !(WakeSent(t) && IsLinked(t))
      && (pass.Busy? ==> !pass.pc.ExpiredRelease?)
  {
    assert PassOwns(s, s.processes[0].pass);
    WriteNeeds(s, now, pc);
    WriteRow(s, now, pc);
    WriteOwns(s, now, pc);
    WriteLinks(s, now, pc);
  }

  lemma {:induction false} WriteStepOwns(s: System, now: int, pc: PassPc)
    requires Inv(s) && Owned(s) && 0 in s.processes && s.processes[0].pass == Busy(now, pc) && RowMove(s, now, pc).Some?
    requires pc.Promoting? && s.row.Some? ==> !(s.row.value.status.Observed? && RoutingOwned(s.row.value.reason))
    ensures
      var write := RowMove(s, now, pc).value;
      Owned(Put(s, 0, s.processes[0].(pass := write.1)).(row := write.0))
  {
    var write := RowMove(s, now, pc).value;
    var t := Put(s, 0, s.processes[0].(pass := write.1)).(row := write.0);
    WriteExcludes(s, now, pc);
    WriteNeeds(s, now, pc);
    forall m | Reserved(s.row, m) && (pc.ExpiredRelease? ==> now <= m)
      ensures Reserved(t.row, m)
    {
      WriteReserved(s, now, pc, m);
    }
    PassFrame(s, t);
  }

  lemma {:induction false} ReadStepOwns(s: System, now: int, pc: PassPc, pick: bool)
    requires Inv(s) && Owned(s) && 0 in s.processes && s.processes[0].pass == Busy(now, pc)
    requires ReadMove(s, s.processes[0], now, pc, pick).Some?
    ensures Owned(Put(s, 0, s.processes[0].(pass := ReadMove(s, s.processes[0], now, pc, pick).value)))
  {
    assert PassOwns(s, s.processes[0].pass);
    ReadOwns(s, s.processes[0], now, pc, pick);
    PassFrame(s, Put(s, 0, s.processes[0].(pass := ReadMove(s, s.processes[0], now, pc, pick).value)));
  }

  lemma {:induction false} CreateStepOwns(s: System, now: int, pc: PassPc, pick: bool)
    requires Inv(s) && Owned(s) && 0 in s.processes && s.processes[0].pass == Busy(now, pc) && (pc.CreateRun? || pc.CancelRun?)
    ensures Owned(AdvanceStep(s, 0, now, pc, pick).value)
  {
    assert PassOwns(s, s.processes[0].pass);
    PassFrame(s, AdvanceStep(s, 0, now, pc, pick).value);
  }

  lemma {:induction false} AdvanceOwns(s: System, now: int, pc: PassPc, pick: bool)
    requires Inv(s) && Owned(s) && 0 in s.processes && s.processes[0].pass == Busy(now, pc)
    requires AdvanceStep(s, 0, now, pc, pick).Some?
    requires pc.Promoting? && s.row.Some? ==> !(s.row.value.status.Observed? && RoutingOwned(s.row.value.reason))
    ensures Owned(AdvanceStep(s, 0, now, pc, pick).value)
  {
    if pc.CreateRun? || pc.CancelRun? {
      CreateStepOwns(s, now, pc, pick);
    } else if RowMove(s, now, pc).Some? {
      WriteStepOwns(s, now, pc);
    } else {
      ReadStepOwns(s, now, pc, pick);
    }
  }

  lemma {:induction false} RetryOwns(s: System, attempts: nat)
    requires Inv(s) && Owned(s) && 0 in s.processes && PassStep(s, 0, Retry(attempts)).Some?
    ensures Owned(PassStep(s, 0, Retry(attempts)).value)
  {
    assert PassOwns(s, s.processes[0].pass);
    PassFrame(s, PassStep(s, 0, Retry(attempts)).value);
  }

  lemma {:induction false} FreeOwns(s: System, now: int, pc: PassPc, move: PassAction)
    requires PassOwns(s, Busy(now, pc)) && FreeMove(s.ambient, now, pc, move).Some?
    ensures PassOwns(s, FreeMove(s.ambient, now, pc, move).value)
    ensures
      var pass := FreeMove(s.ambient, now, pc, move).value;
      pass.Busy? ==> !pass.pc.ExpiredRelease?
  {
  }

  lemma {:induction false} FreeStepOf(s: System, move: PassAction)
    requires 0 in s.processes && PassStep(s, 0, move).Some? && !move.Advance? && !move.Retry?
    ensures
      var t := PassStep(s, 0, move).value;
      && PassStepOf(s, t) && t.row == s.row
      && match s.processes[0].pass
         case Idle => t.processes[0].pass == Busy(s.clock, FindExpired)
         case Busy(now, pc) =>
           if move.Sent? then t.processes[0].pass == Busy(now, Storing(move.handle))
           else FreeMove(s.ambient, now, pc, move) == Some(t.processes[0].pass)
  {
  }

  lemma {:induction false} OtherMovesOwn(s: System, move: PassAction)
    requires Inv(s) && Owned(s) && 0 in s.processes && PassStep(s, 0, move).Some? && !move.Advance? && !move.Retry?
    ensures Owned(PassStep(s, 0, move).value)
  {
    var pass := s.processes[0].pass;
    assert PassOwns(s, pass);
    FreeStepOf(s, move);
    if pass.Busy? && !move.Sent? {
      FreeOwns(s, pass.now, pass.pc, move);
    }
    SamePassOwns(s, PassStep(s, 0, move).value, PassStep(s, 0, move).value.processes[0].pass);
    PassFrame(s, PassStep(s, 0, move).value);
  }

  lemma {:induction false} SamePassOwns(s: System, t: System, pass: Pass)
    requires t.row == s.row && t.clock == s.clock && WakeSent(t) == WakeSent(s)
    ensures PassOwns(s, pass) ==> PassOwns(t, pass)
  {
  }

  lemma {:induction false} HandlerStepOwns(s: System, h: nat, act: HandlerAction)
    requires Owned(s) && Step(s, Handle(0, h, act)).Some? && Careful(s, Handle(0, h, act), {})
    ensures Owned(Step(s, Handle(0, h, act)).value)
  {
    if act.Upsert? {
      UpsertOwns(s, h);
    } else if act.Take? {
      TakeOwns(s, h);
    } else if IsReceive(act) {
      ReceiveOwns(s, h, act);
    } else if IsWake(act) {
      WakeOwns(s, h, act);
    } else {
      MainOwns(s, h, act);
    }
  }

  lemma {:induction false} PassStepOwns(s: System, move: PassAction)
    requires Inv(s) && Owned(s) && Step(s, Reconcile(0, move)).Some? && Careful(s, Reconcile(0, move), {})
    ensures Owned(Step(s, Reconcile(0, move)).value)
  {
    if move.Advance? {
      AdvanceOwns(s, s.processes[0].pass.now, s.processes[0].pass.pc, move.pick);
    } else if move.Retry? {
      RetryOwns(s, move.attempts);
    } else {
      OtherMovesOwn(s, move);
    }
  }

  lemma {:induction false} OutsideOwns(s: System, a: Action)
    requires Owned(s) && Step(s, a).Some? && Careful(s, a, {}) && !a.Handle? && !a.Reconcile?
    ensures Owned(Step(s, a).value)
  {
    if a.BootRelease? || a.PlainReceive? || a.StrayRenew? {
      OutsideWritesOwn(s, a);
    }
  }

  lemma {:induction false} OutsideWritesOwn(s: System, a: Action)
    requires Owned(s) && Step(s, a).Some? && OneProcess(a) && (a.BootRelease? || a.PlainReceive? || a.StrayRenew?)
    ensures Owned(Step(s, a).value)
  {
  }

  lemma {:induction false} StepOwns(s: System, a: Action)
    requires Inv(s) && Owned(s) && Step(s, a).Some? && Careful(s, a, {})
    ensures Owned(Step(s, a).value)
  {
    if a.Handle? {
      HandlerStepOwns(s, a.h, a.act);
    } else if a.Reconcile? {
      PassStepOwns(s, a.move);
    } else {
      OutsideOwns(s, a);
    }
  }

  lemma {:induction false} RunOwns(s: System, actions: seq<Action>)
    requires Inv(s) && Owned(s) && CarefulRun(s, actions, {}) && Exec(s, actions).Some?
    ensures Owned(Exec(s, actions).value)
    decreases |actions|
  {
    if actions != [] {
      StepOwns(s, actions[0]);
      StepKeeps(s, actions[0]);
      RunOwns(Step(s, actions[0]).value, actions[1..]);
    }
  }

  /** No careful run of one process links the row to an agent run while a routine wake message for the event exists. */
  lemma {:induction false} OwnershipExclusion(ambient: bool, clock: int, actions: seq<Action>)
    requires Exec(Init(ambient, clock), actions).Some? && CarefulRun(Init(ambient, clock), actions, {})
    ensures
      var s := Exec(Init(ambient, clock), actions).value;
      !(WakeSent(s) && IsLinked(s))
  {
    InitInv(ambient, clock);
    RunOwns(Init(ambient, clock), actions);
  }

  // ---- messages that are not ambient are never observed, so the judge never sees them

  ghost predicate Unobserved(s: System) {
    !s.ambient && (s.row.Some? ==> !s.row.value.status.Observed?)
  }

  lemma {:induction false} HandleUnobserved(s: System, p: nat, h: nat, act: HandlerAction)
    requires Unobserved(s) && Step(s, Handle(p, h, act)).Some?
    ensures Unobserved(Step(s, Handle(p, h, act)).value)
  {
  }

  lemma {:induction false} WriteUnobserved(s: System, now: int, pc: PassPc)
    requires Unobserved(s) && RowMove(s, now, pc).Some?
    ensures Unobserved(s.(row := RowMove(s, now, pc).value.0))
  {
  }

  lemma {:induction false} ReconcileUnobserved(s: System, p: nat, move: PassAction)
    requires Unobserved(s) && Step(s, Reconcile(p, move)).Some?
    ensures Unobserved(Step(s, Reconcile(p, move)).value)
  {
    var pass := s.processes[p].pass;
    if pass.Busy? && move.Advance? && RowMove(s, pass.now, pass.pc).Some? {
      WriteUnobserved(s, pass.now, pass.pc);
    }
  }

  lemma {:induction false} UnobservedRun(s: System, actions: seq<Action>)
    requires Unobserved(s) && CarefulRun(s, actions, {JudgeOverRouting}) && Exec(s, actions).Some?
    ensures CarefulRun(s, actions, {})
    decreases |actions|
  {
    if actions != [] {
      var a := actions[0];
      match a {
        case Handle(p, h, act) => HandleUnobserved(s, p, h, act);
        case Reconcile(p, move) => ReconcileUnobserved(s, p, move);
        case _ =>
      }
      UnobservedRun(Step(s, a).value, actions[1..]);
    }
  }

  /** For a direct message or mention, the judge condition is not needed. */
  lemma {:induction false} DirectOwnershipExclusion(clock: int, actions: seq<Action>)
    requires Exec(Init(false, clock), actions).Some? && CarefulRun(Init(false, clock), actions, {JudgeOverRouting})
    ensures
      var s := Exec(Init(false, clock), actions).value;
      !(WakeSent(s) && IsLinked(s))
  {
    UnobservedRun(Init(false, clock), actions);
    OwnershipExclusion(false, clock, actions);
  }
}
