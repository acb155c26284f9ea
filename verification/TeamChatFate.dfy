/**
 Whether an event can be lost or answered uninvited: an ambient message starts a run only after the
 judge decided to act, and in one process a row is ignored only for a delivered routine wake or a
 judge that declined. With a second process a message can be lost.
 */
module TeamChatFate {
  import opened Common
  import opened TeamChatRow
  import opened TeamChatProtocol
  import opened TeamChatDelivery
  import opened TeamChatOwnership
  import opened TeamChatRaces

  function PassOf(t: System, p: nat): Option<Pass> {
    if p in t.processes then Some(t.processes[p].pass) else None
  }

  // ---------------------------------------------------------------- the judge comes first

  // On its way to a run.
  predicate Engaged(row: Option<Row>) {
    row.Some? && (row.value.status.Received? || row.value.status.Queueing? || Linked(row.value.status))
  }

  ghost predicate Judged(s: System) {
    s.ambient ==>
      && (Engaged(s.row) ==> s.acted)
      && forall p :: p in s.processes && s.processes[p].pass.Busy? && s.processes[p].pass.pc.Promoting? ==> s.acted
  }

  // No step but a promotion engages an ambient row.
  ghost predicate EngagesNothing(s: System, t: System) {
    t.ambient == s.ambient && (s.acted ==> t.acted) && (s.ambient && Engaged(t.row) ==> Engaged(s.row) || t.acted)
  }

  ghost predicate PromotesNothing(s: System, t: System) {
    forall p :: p in t.processes && t.processes[p].pass.Busy? && t.processes[p].pass.pc.Promoting? ==>
      t.acted || (p in s.processes && t.processes[p].pass == s.processes[p].pass)
  }

  lemma {:induction false} JudgedStays(s: System, t: System)
    requires Judged(s) && EngagesNothing(s, t) && PromotesNothing(s, t)
    ensures Judged(t)
  {
  }

  lemma {:induction false} ReceiveEngagesNothing(s: System, p: nat, h: nat, act: HandlerAction)
    requires RowInv(s.row) && p in s.processes && ReceiveStep(s, p, h, act).Some?
    ensures SamePasses(s, ReceiveStep(s, p, h, act).value)
  {
  }

  lemma {:induction false} WakeEngagesNothing(s: System, p: nat, h: nat, act: HandlerAction)
    requires RowInv(s.row) && p in s.processes && WakeStep(s, p, h, act).Some?
    ensures SamePasses(s, WakeStep(s, p, h, act).value)
  {
  }

  lemma {:induction false} MainEngagesNothing(s: System, p: nat, h: nat, act: HandlerAction)
    requires RowInv(s.row) && p in s.processes && MainStep(s, p, h, act).Some?
    ensures SamePasses(s, MainStep(s, p, h, act).value)
  {
  }

  ghost predicate SamePasses(s: System, t: System) {
    EngagesNothing(s, t) && PromotesNothing(s, t)
  }

  lemma {:induction false} OutsideEngagesNothing(s: System, a: Action)
    requires RowInv(s.row) && Step(s, a).Some? && !a.Handle? && !a.Reconcile?
    ensures EngagesNothing(s, Step(s, a).value) && PromotesNothing(s, Step(s, a).value)
  {
  }

  lemma {:induction false} WriteEngages(s: System, now: int, pc: PassPc)
    requires RowInv(s.row) && RowMove(s, now, pc).Some? && s.ambient
    requires NeedsLinked(pc) ==> IsLinked(s)
    ensures
      var (row, pass) := RowMove(s, now, pc).value;
      && (Engaged(row) ==> Engaged(s.row) || pc.Promoting?)
      && !(pass.Busy? && pass.pc.Promoting?)
  {
  }

  // What a step of the pass of p can touch.
  ghost predicate Advanced(s: System, t: System, p: nat, now: int, pc: PassPc, pick: bool)
    requires p in s.processes
  {
    && t.ambient == s.ambient && t.acted == s.acted && t.declined == s.declined && WakeSent(t) == WakeSent(s)
    && p in t.processes && t.processes == s.processes[p := s.processes[p].(pass := t.processes[p].pass)]
    && if pc.CreateRun? then t.row == s.row && t.processes[p].pass == Busy(now, FinalWake(RunFor(s, AgentNonce)))
       else if pc.CancelRun? then t.row == s.row && t.processes[p].pass == Busy(now, Abandoning(true))
       else if RowMove(s, now, pc).Some? then (t.row, t.processes[p].pass) == RowMove(s, now, pc).value
       else t.row == s.row && ReadMove(s, s.processes[p], now, pc, pick) == Some(t.processes[p].pass)
  }

  lemma {:induction false} AdvanceIs(s: System, p: nat, now: int, pc: PassPc, pick: bool)
    requires p in s.processes && s.processes[p].pass == Busy(now, pc) && AdvanceStep(s, p, now, pc, pick).Some?
    ensures Advanced(s, AdvanceStep(s, p, now, pc, pick).value, p, now, pc, pick)
  {
    if pc.CreateRun? || pc.CancelRun? {
      RunMoveIs(s, p, now, pc, pick);
    } else if RowMove(s, now, pc).Some? {
      WriteMoveIs(s, p, now, pc, pick);
    }
  }

  lemma {:induction false} RunMoveIs(s: System, p: nat, now: int, pc: PassPc, pick: bool)
    requires p in s.processes && s.processes[p].pass == Busy(now, pc) && (pc.CreateRun? || pc.CancelRun?)
    ensures AdvanceStep(s, p, now, pc, pick).Some? && Advanced(s, AdvanceStep(s, p, now, pc, pick).value, p, now, pc, pick)
  {
  }

  lemma {:induction false} WriteMoveIs(s: System, p: nat, now: int, pc: PassPc, pick: bool)
    requires p in s.processes && s.processes[p].pass == Busy(now, pc) && RowMove(s, now, pc).Some?
    ensures AdvanceStep(s, p, now, pc, pick).Some? && Advanced(s, AdvanceStep(s, p, now, pc, pick).value, p, now, pc, pick)
  {
    var t := Put(s, p, s.processes[p].(pass := RowMove(s, now, pc).value.1)).(row := RowMove(s, now, pc).value.0);
    assert AdvanceStep(s, p, now, pc, pick) == Some(t);
  }

  lemma {:induction false} ReadPromotesNothing(s: System, process: Process, now: int, pc: PassPc, pick: bool)
    requires ReadMove(s, process, now, pc, pick).Some?
    ensures
      var pass := ReadMove(s, process, now, pc, pick).value;
      !(pass.Busy? && pass.pc.Promoting?)
  {
  }

  lemma {:induction false} AdvanceJudged(s: System, t: System, p: nat, now: int, pc: PassPc, pick: bool)
    requires RowInv(s.row) && Judged(s) && p in s.processes && s.processes[p].pass == Busy(now, pc)
    requires PassInv(s, Busy(now, pc)) && Advanced(s, t, p, now, pc, pick)
    ensures Judged(t)
  {
    if pc.CreateRun? || pc.CancelRun? {
      assert EngagesNothing(s, t);
    } else if RowMove(s, now, pc).Some? {
      if s.ambient {
        WriteEngages(s, now, pc);
      }
    } else {
      ReadPromotesNothing(s, s.processes[p], now, pc, pick);
    }
  }

  lemma {:induction false} OtherMovesJudged(s: System, p: nat, move: PassAction)
    requires Inv(s) && Judged(s) && p in s.processes && PassStep(s, p, move).Some? && !move.Advance?
    ensures Judged(PassStep(s, p, move).value)
  {
    var t := PassStep(s, p, move).value;
    assert EngagesNothing(s, t) && PromotesNothing(s, t);
    JudgedStays(s, t);
  }

  lemma {:induction false} StepJudged(s: System, a: Action)
    requires Inv(s) && Judged(s) && Step(s, a).Some?
    ensures Judged(Step(s, a).value)
  {
    if a.Handle? {
      if IsReceive(a.act) {
        ReceiveEngagesNothing(s, a.p, a.h, a.act);
      } else if IsWake(a.act) {
        WakeEngagesNothing(s, a.p, a.h, a.act);
      } else {
        MainEngagesNothing(s, a.p, a.h, a.act);
      }
      JudgedStays(s, Step(s, a).value);
    } else if !a.Reconcile? {
      OutsideEngagesNothing(s, a);
      JudgedStays(s, Step(s, a).value);
    } else if a.move.Advance? {
      var pass := s.processes[a.p].pass;
      AdvanceIs(s, a.p, pass.now, pass.pc, a.move.pick);
      assert PassInv(s, pass);
      AdvanceJudged(s, Step(s, a).value, a.p, pass.now, pass.pc, a.move.pick);
    } else {
      OtherMovesJudged(s, a.p, a.move);
    }
  }

  lemma {:induction false} RunJudged(s: System, actions: seq<Action>)
    requires Inv(s) && Judged(s) && Exec(s, actions).Some?
    ensures Inv(Exec(s, actions).value) && Judged(Exec(s, actions).value)
    decreases |actions|
  {
    if actions != [] {
      StepKeeps(s, actions[0]);
      StepJudged(s, actions[0]);
      RunJudged(Step(s, actions[0]).value, actions[1..]);
    }
  }

  // ---------------------------------------------------------------- the actions of a run

  predicate JudgeActed(a: Action) {
    a.Reconcile? && a.move.JudgeActs?
  }

  predicate JudgeDeclined(a: Action) {
    a.Reconcile? && a.move.JudgeIgnores?
  }

  // The flags of the system are the judge's decisions in the run.
  lemma {:induction false} DecisionsAreActions(s: System, actions: seq<Action>)
    requires Exec(s, actions).Some?
    ensures Exec(s, actions).value.acted <==> s.acted || exists a :: a in actions && JudgeActed(a)
    ensures Exec(s, actions).value.declined <==> s.declined || exists a :: a in actions && JudgeDeclined(a)
    ensures Exec(s, actions).value.ambient == s.ambient
    decreases |actions|
  {
    if actions != [] {
      DecisionStep(s, actions[0]);
      DecisionsAreActions(Step(s, actions[0]).value, actions[1..]);
      assert forall a :: a in actions <==> a == actions[0] || a in actions[1..];
    }
  }

  lemma {:induction false} DecisionStep(s: System, a: Action)
    requires Step(s, a).Some?
    ensures Step(s, a).value.acted == (s.acted || JudgeActed(a))
    ensures Step(s, a).value.declined == (s.declined || JudgeDeclined(a))
    ensures Step(s, a).value.ambient == s.ambient
  {
    if a.Reconcile? {
      if a.move.Advance? {
        AdvanceIs(s, a.p, s.processes[a.p].pass.now, s.processes[a.p].pass.pc, a.move.pick);
      } else {
        MoveDecides(s, a.p, a.move);
      }
    } else {
      OthersDecideNothing(s, a);
    }
  }

  lemma {:induction false} MoveDecides(s: System, p: nat, move: PassAction)
    requires p in s.processes && PassStep(s, p, move).Some? && !move.Advance?
    ensures PassStep(s, p, move).value.acted == (s.acted || move.JudgeActs?)
    ensures PassStep(s, p, move).value.declined == (s.declined || move.JudgeIgnores?)
    ensures PassStep(s, p, move).value.ambient == s.ambient
  {
  }

  lemma {:induction false} OthersDecideNothing(s: System, a: Action)
    requires Step(s, a).Some? && !a.Reconcile?
    ensures Step(s, a).value.acted == s.acted && Step(s, a).value.declined == s.declined && Step(s, a).value.ambient == s.ambient
  {
    if a.Handle? {
      HandlersDecideNothing(s, a.p, a.h, a.act);
    }
  }

  lemma {:induction false} HandlersDecideNothing(s: System, p: nat, h: nat, act: HandlerAction)
    requires p in s.processes
    ensures ReceiveStep(s, p, h, act).Some? ==> SameDecisions(s, ReceiveStep(s, p, h, act).value)
    ensures WakeStep(s, p, h, act).Some? ==> SameDecisions(s, WakeStep(s, p, h, act).value)
    ensures MainStep(s, p, h, act).Some? ==> SameDecisions(s, MainStep(s, p, h, act).value)
  {
  }

  predicate SameDecisions(s: System, t: System) {
    t.acted == s.acted && t.declined == s.declined && t.ambient == s.ambient
  }

  /** An ambient message is received, queued or linked only in a run in which the judge decided to act. */
  lemma {:induction false} AmbientNeedsJudge(clock: int, actions: seq<Action>)
    requires Exec(Init(true, clock), actions).Some? && Engaged(Exec(Init(true, clock), actions).value.row)
    ensures exists a :: a in actions && JudgeActed(a)
  {
    InitInv(true, clock);
    RunJudged(Init(true, clock), actions);
    DecisionsAreActions(Init(true, clock), actions);
  }

  // ---------------------------------------------------------------- a wake needs a routine

  predicate FoundRoutine(a: Action) {
    a.Handle? && a.act == FindRoutines(true)
  }

  // Without a routine found, no wake is on its way to delivery.
  ghost predicate NoWakeYet(s: System) {
    !WakeSent(s) && forall p, h :: p in s.processes && h in s.processes[p].handlers && HasWake(s.processes[p].handlers[h]) ==>
      var wake := WakeOf(s.processes[p].handlers[h]);
      wake.Looking? || wake.Settled?
  }

  lemma {:induction false} ReceiveWakesNobody(s: System, p: nat, h: nat, act: HandlerAction)
    requires NoWakeYet(s) && p in s.processes && ReceiveStep(s, p, h, act).Some?
    ensures NoWakeYet(ReceiveStep(s, p, h, act).value)
  {
  }

  lemma {:induction false} WakeWakesNobody(s: System, p: nat, h: nat, act: HandlerAction)
    requires NoWakeYet(s) && p in s.processes && WakeStep(s, p, h, act).Some? && act != FindRoutines(true)
    ensures NoWakeYet(WakeStep(s, p, h, act).value)
  {
    assert WakeOf(s.processes[p].handlers[h]).Looking?;
  }

  // The handler's own wake is the same or gone, the others are untouched.
  ghost predicate WakeUntouched(s: System, t: System, p: nat, h: nat)
    requires p in s.processes && h in s.processes[p].handlers
  {
    && WakeSent(t) == WakeSent(s) && t.processes.Keys == s.processes.Keys
    && (forall q :: q in s.processes && q != p ==> t.processes[q] == s.processes[q])
    && (forall g :: g in t.processes[p].handlers && g != h ==> g in s.processes[p].handlers && t.processes[p].handlers[g] == s.processes[p].handlers[g])
    && (h in t.processes[p].handlers && HasWake(t.processes[p].handlers[h]) ==>
          HasWake(s.processes[p].handlers[h]) && WakeOf(t.processes[p].handlers[h]) == WakeOf(s.processes[p].handlers[h]))
  }

  lemma {:induction false} LeaveTouchesNoWake(s: System, p: nat, h: nat)
    requires p in s.processes && MainStep(s, p, h, Leave).Some?
    ensures h in s.processes[p].handlers && WakeUntouched(s, MainStep(s, p, h, Leave).value, p, h)
  {
  }

  lemma {:induction false} SeesTouchNoWake(s: System, p: nat, h: nat, act: HandlerAction)
    requires p in s.processes && MainStep(s, p, h, act).Some? && (act.SeeWake? || act.SeeLost? || act.SeeBroken? || act.MainThrows?)
    ensures h in s.processes[p].handlers && WakeUntouched(s, MainStep(s, p, h, act).value, p, h)
  {
  }

  lemma {:induction false} MainTouchesNoWake(s: System, p: nat, h: nat, act: HandlerAction)
    requires p in s.processes && MainStep(s, p, h, act).Some?
    ensures h in s.processes[p].handlers && WakeUntouched(s, MainStep(s, p, h, act).value, p, h)
  {
    if act.Leave? {
      LeaveTouchesNoWake(s, p, h);
    } else if act.SeeWake? || act.SeeLost? || act.SeeBroken? || act.MainThrows? {
      SeesTouchNoWake(s, p, h, act);
    }
  }

  lemma {:induction false} UntouchedWakesNobody(s: System, t: System, p: nat, h: nat)
    requires NoWakeYet(s) && p in s.processes && h in s.processes[p].handlers && WakeUntouched(s, t, p, h)
    ensures NoWakeYet(t)
  {
  }

  lemma {:induction false} MainWakesNobody(s: System, p: nat, h: nat, act: HandlerAction)
    requires NoWakeYet(s) && p in s.processes && MainStep(s, p, h, act).Some?
    ensures NoWakeYet(MainStep(s, p, h, act).value)
  {
    MainTouchesNoWake(s, p, h, act);
    UntouchedWakesNobody(s, MainStep(s, p, h, act).value, p, h);
  }

  lemma {:induction false} SameHandlersWakeNobody(s: System, t: System)
    requires NoWakeYet(s) && !WakeSent(t)
    requires forall p :: p in t.processes ==> t.processes[p].handlers == map[] || (p in s.processes && t.processes[p].handlers == s.processes[p].handlers)
    ensures NoWakeYet(t)
  {
  }

  lemma {:induction false} StepWakesNobody(s: System, a: Action)
    requires NoWakeYet(s) && Step(s, a).Some? && !FoundRoutine(a)
    ensures NoWakeYet(Step(s, a).value)
  {
    if a.Handle? {
      if IsReceive(a.act) {
        ReceiveWakesNobody(s, a.p, a.h, a.act);
      } else if IsWake(a.act) {
        WakeWakesNobody(s, a.p, a.h, a.act);
      } else {
        MainWakesNobody(s, a.p, a.h, a.act);
      }
    } else {
      if a.Reconcile? && a.move.Advance? {
        AdvanceIs(s, a.p, s.processes[a.p].pass.now, s.processes[a.p].pass.pc, a.move.pick);
      } else {
        KeepsHandlers(s, a);
      }
      SameHandlersWakeNobody(s, Step(s, a).value);
    }
  }

  ghost predicate SameHandlers(s: System, t: System) {
    && WakeSent(t) == WakeSent(s)
    && forall p :: p in t.processes ==> t.processes[p].handlers == map[] || (p in s.processes && t.processes[p].handlers == s.processes[p].handlers)
  }

  lemma {:induction false} MoveKeepsHandlers(s: System, p: nat, move: PassAction)
    requires p in s.processes && PassStep(s, p, move).Some? && !move.Advance?
    ensures SameHandlers(s, PassStep(s, p, move).value)
  {
  }

  lemma {:induction false} KeepsHandlers(s: System, a: Action)
    requires Step(s, a).Some? && !a.Handle? && !(a.Reconcile? && a.move.Advance?)
    ensures SameHandlers(s, Step(s, a).value)
  {
    if a.Reconcile? {
      MoveKeepsHandlers(s, a.p, a.move);
    }
  }

  lemma {:induction false} RunWakesNobody(s: System, actions: seq<Action>)
    requires NoWakeYet(s) && Exec(s, actions).Some? && forall a :: a in actions ==> !FoundRoutine(a)
    ensures NoWakeYet(Exec(s, actions).value)
    decreases |actions|
  {
    if actions != [] {
      assert actions[0] in actions;
      StepWakesNobody(s, actions[0]);
      RunWakesNobody(Step(s, actions[0]).value, actions[1..]);
    }
  }

  /** A routine wake message exists only in a run in which a handler found a routine for the event. */
  lemma {:induction false} WakeNeedsRoutine(ambient: bool, clock: int, actions: seq<Action>)
    requires Exec(Init(ambient, clock), actions).Some? && WakeSent(Exec(Init(ambient, clock), actions).value)
    ensures exists a :: a in actions && FoundRoutine(a)
  {
    if forall a :: a in actions ==> !FoundRoutine(a) {
      RunWakesNobody(Init(ambient, clock), actions);
    }
  }

  // ---------------------------------------------------------------- nothing is lost in one process

  predicate IsIgnored(row: Option<Row>) {
    row.Some? && row.value.status.Ignored?
  }

  predicate IsQueueing(row: Option<Row>) {
    row.Some? && row.value.status.Queueing?
  }

  predicate Excused(s: System) {
    WakeSent(s) || s.declined
  }

  // What entitles the pass to ignore the row.
  ghost predicate MayIgnore(s: System, pass: Pass) {
    pass.Busy? ==>
      && (pass.pc.ExpiredIgnore? || pass.pc.CancelRun? || pass.pc == Abandoning(false) ==> WakeSent(s))
      && (pass.pc.IgnoringAmbient? ==> s.declined)
      && (pass.pc == Abandoning(true) ==> WakeSent(s) || !IsQueueing(s.row))
  }

  ghost predicate WakeTells(s: System, handler: Handler) {
    handler.Waking? ==>
      (handler.wake == Settled(Woken) || handler.main == Resolving(true) ==> WakeSent(s))
  }

  ghost predicate Kept(s: System) {
    && s.processes.Keys <= {0}
    && (IsIgnored(s.row) ==> Excused(s))
    && (forall p :: p in s.processes ==>
          && MayIgnore(s, s.processes[p].pass)
          && forall h :: h in s.processes[p].handlers ==> WakeTells(s, s.processes[p].handlers[h]))
  }

  // Excuses stay, and outside the pass nothing starts queueing.
  ghost predicate Lasting(s: System, t: System) {
    (WakeSent(s) ==> WakeSent(t)) && (s.declined ==> t.declined) && (IsQueueing(t.row) ==> IsQueueing(s.row))
  }

  // What a step of handler h can touch: the row, the handler, and through the wake the thread.
  ghost predicate Handled(s: System, t: System, h: nat)
    requires 0 in s.processes
  {
    && Lasting(s, t) && 0 in t.processes && t.processes.Keys == s.processes.Keys
    && t.processes[0].pass == s.processes[0].pass
    && (forall g :: g in t.processes[0].handlers && g != h ==>
          g in s.processes[0].handlers && t.processes[0].handlers[g] == s.processes[0].handlers[g])
    && (IsIgnored(t.row) ==> IsIgnored(s.row) || WakeSent(t))
    && (h in t.processes[0].handlers ==> WakeTells(t, t.processes[0].handlers[h]))
  }

  lemma {:induction false} HandledKept(s: System, t: System, h: nat)
    requires Kept(s) && 0 in s.processes && Handled(s, t, h)
    ensures Kept(t)
  {
    assert MayIgnore(s, s.processes[0].pass);
    forall g | g in t.processes[0].handlers
      ensures WakeTells(t, t.processes[0].handlers[g])
    {
      if g != h {
        assert WakeTells(s, s.processes[0].handlers[g]);
      }
    }
  }

  lemma {:induction false} UpsertHandled(s: System, h: nat)
    requires Kept(s) && 0 in s.processes && ReceiveStep(s, 0, h, Upsert).Some?
    ensures Handled(s, ReceiveStep(s, 0, h, Upsert).value, h)
  {
  }

  lemma {:induction false} ReceiveHandled(s: System, h: nat, act: HandlerAction)
    requires Kept(s) && 0 in s.processes && ReceiveStep(s, 0, h, act).Some?
    ensures Handled(s, ReceiveStep(s, 0, h, act).value, h)
  {
    if act.Upsert? {
      UpsertHandled(s, h);
    }
  }

  lemma {:induction false} WakeHandled(s: System, h: nat, act: HandlerAction)
    requires Kept(s) && 0 in s.processes && WakeStep(s, 0, h, act).Some?
    ensures Handled(s, WakeStep(s, 0, h, act).value, h)
  {
    assert WakeTells(s, s.processes[0].handlers[h]);
  }

  lemma {:induction false} ReleaseHandled(s: System, h: nat)
    requires Kept(s) && 0 in s.processes && MainStep(s, 0, h, Release).Some?
    ensures Handled(s, MainStep(s, 0, h, Release).value, h)
  {
    assert WakeTells(s, s.processes[0].handlers[h]);
  }

  lemma {:induction false} MainHandled(s: System, h: nat, act: HandlerAction)
    requires Kept(s) && 0 in s.processes && MainStep(s, 0, h, act).Some?
    ensures Handled(s, MainStep(s, 0, h, act).value, h)
  {
    if act.Release? {
      ReleaseHandled(s, h);
    } else {
      assert WakeTells(s, s.processes[0].handlers[h]);
    }
  }

  lemma {:induction false} OutsideKept(s: System, a: Action)
    requires Kept(s) && Step(s, a).Some? && OneProcess(a) && !a.Handle? && !a.Reconcile?
    ensures Kept(Step(s, a).value)
  {
    var t := Step(s, a).value;
    assert Lasting(s, t) && (IsIgnored(t.row) ==> IsIgnored(s.row));
  }

  lemma {:induction false} WriteKept(s: System, now: int, pc: PassPc)
    requires MayIgnore(s, Busy(now, pc)) && (IsIgnored(s.row) ==> Excused(s)) && RowMove(s, now, pc).Some?
    ensures
      var (row, pass) := RowMove(s, now, pc).value;
      (IsIgnored(row) ==> Excused(s)) && MayIgnore(s.(row := row), pass)
  {
  }

  lemma {:induction false} ReadKept(s: System, process: Process, now: int, pc: PassPc, pick: bool)
    requires Inv(s) && MayIgnore(s, Busy(now, pc)) && ReadMove(s, process, now, pc, pick).Some?
    ensures MayIgnore(s, ReadMove(s, process, now, pc, pick).value)
  {
  }

  lemma {:induction false} AdvanceKept(s: System, t: System, now: int, pc: PassPc, pick: bool)
    requires Inv(s) && Kept(s) && 0 in s.processes && s.processes[0].pass == Busy(now, pc) && Advanced(s, t, 0, now, pc, pick)
    ensures Kept(t)
  {
    assert MayIgnore(s, s.processes[0].pass);
    if pc.CreateRun? || pc.CancelRun? {
      assert MayIgnore(t, t.processes[0].pass);
    } else if RowMove(s, now, pc).Some? {
      WriteKept(s, now, pc);
      MayStillIgnore(s.(row := t.row), t, t.processes[0].pass);
    } else {
      ReadKept(s, s.processes[0], now, pc, pick);
      MayStillIgnore(s, t, t.processes[0].pass);
    }
    forall h | h in t.processes[0].handlers
      ensures WakeTells(t, t.processes[0].handlers[h])
    {
      assert WakeTells(s, s.processes[0].handlers[h]);
    }
  }

  lemma {:induction false} MayStillIgnore(s: System, t: System, pass: Pass)
    requires t.row == s.row && WakeSent(t) == WakeSent(s) && t.declined == s.declined && MayIgnore(s, pass)
    ensures MayIgnore(t, pass)
  {
  }

  // A step of the pass that leaves the handlers alone.
  lemma {:induction false} PassKept(s: System, t: System)
    requires Kept(s) && 0 in s.processes && Lasting(s, t) && t.processes.Keys == s.processes.Keys
    requires t.processes[0].handlers == s.processes[0].handlers && MayIgnore(t, t.processes[0].pass)
    requires IsIgnored(t.row) ==> IsIgnored(s.row)
    ensures Kept(t)
  {
    forall h | h in t.processes[0].handlers
      ensures WakeTells(t, t.processes[0].handlers[h])
    {
      assert WakeTells(s, s.processes[0].handlers[h]);
    }
  }

  lemma {:induction false} RetryKept(s: System, attempts: nat)
    requires Kept(s) && 0 in s.processes && PassStep(s, 0, Retry(attempts)).Some?
    ensures Kept(PassStep(s, 0, Retry(attempts)).value)
  {
    PassKept(s, PassStep(s, 0, Retry(attempts)).value);
  }

  lemma {:induction false} OtherMovesKept(s: System, move: PassAction)
    requires Kept(s) && 0 in s.processes && PassStep(s, 0, move).Some? && !move.Advance?
    ensures Kept(PassStep(s, 0, move).value)
  {
    if move.Retry? {
      RetryKept(s, move.attempts);
    } else {
      assert MayIgnore(s, s.processes[0].pass);
      PassKept(s, PassStep(s, 0, move).value);
    }
  }

  lemma {:induction false} StepKept(s: System, a: Action)
    requires Inv(s) && Kept(s) && Step(s, a).Some? && OneProcess(a)
    ensures Kept(Step(s, a).value)
  {
    if a.Handle? {
      if IsReceive(a.act) {
        ReceiveHandled(s, a.h, a.act);
      } else if IsWake(a.act) {
        WakeHandled(s, a.h, a.act);
      } else {
        MainHandled(s, a.h, a.act);
      }
      HandledKept(s, Step(s, a).value, a.h);
    } else if !a.Reconcile? {
      OutsideKept(s, a);
    } else if a.move.Advance? {
      var pass := s.processes[0].pass;
      AdvanceIs(s, 0, pass.now, pass.pc, a.move.pick);
      AdvanceKept(s, Step(s, a).value, pass.now, pass.pc, a.move.pick);
    } else {
      OtherMovesKept(s, a.move);
    }
  }

  lemma {:induction false} RunKept(s: System, actions: seq<Action>, allowed: set<Hazard>)
    requires Inv(s) && Kept(s) && Exec(s, actions).Some? && CarefulRun(s, actions, allowed) && ManyProcesses !in allowed
    ensures Kept(Exec(s, actions).value)
    decreases |actions|
  {
    if actions != [] {
      StepKeeps(s, actions[0]);
      StepKept(s, actions[0]);
      RunKept(Step(s, actions[0]).value, actions[1..], allowed);
    }
  }

  // An ignored event was taken by a routine or declined by the judge.
  predicate Lost(s: System, actions: seq<Action>) {
    IsIgnored(s.row) && !WakeSent(s) && !exists a :: a in actions && JudgeDeclined(a)
  }

  /** In one process no event is lost, whatever else goes wrong. */
  lemma {:induction false} NothingLost(ambient: bool, clock: int, actions: seq<Action>, allowed: set<Hazard>)
    requires Exec(Init(ambient, clock), actions).Some? && CarefulRun(Init(ambient, clock), actions, allowed) && ManyProcesses !in allowed
    ensures !Lost(Exec(Init(ambient, clock), actions).value, actions)
  {
    InitInv(ambient, clock);
    RunKept(Init(ambient, clock), actions, allowed);
    DecisionsAreActions(Init(ambient, clock), actions);
  }

  // ---------------------------------------------------------------- a second process can lose one

  const RECEIVED := Fresh(Received, None)
  const CLAIMED := Row(Queueing, Agent, Some(QUEUE_RESERVATION_MS), None, None)

  // No wake and no judge so far; process 0 and perhaps 1 are in these passes.
  ghost predicate Stage(t: System, row: Row, first: Pass, second: Option<Pass>) {
    (t.row, WakeSent(t), t.declined, t.ambient, PassOf(t, 0), PassOf(t, 1)) == (Some(row), false, false, false, Some(first), second)
  }

  // Process 0 claims the message and stalls before it looks at the row again.
  lemma {:induction false} FirstStalls() returns (u: System)
    ensures Reach(ManyProcesses, Init(false, 0), u) && u.clock == 0 && Stage(u, CLAIMED, Busy(0, Latest), None)
  {
    var hz, s := ManyProcesses, Init(false, 0);
    Start(hz, s);
    u := Go(hz, s, s, Launch(0));
    u := Go(hz, s, u, Serve(0));
    u := Go(hz, s, u, PlainReceive(0));
    u := Go(hz, s, u, Reconcile(0, Begin));
    u := FirstClaims(u);
  }

  lemma {:induction false} FirstClaims(t: System) returns (u: System)
    requires Reach(ManyProcesses, Init(false, 0), t) && t.clock == 0 && Stage(t, RECEIVED, Busy(0, FindExpired), None)
    ensures Reach(ManyProcesses, Init(false, 0), u) && u.clock == 0 && Stage(u, CLAIMED, Busy(0, Latest), None)
  {
    u := Skips(t, 0, RECEIVED);
    u := ReachesClaim(u, 0);
    u := Moves(u, 0, true);
    u := LooksAgain(u);
  }

  lemma {:induction false} LooksAgain(t: System) returns (u: System)
    requires Reach(ManyProcesses, Init(false, 0), t) && t.clock == 0 && Stage(t, CLAIMED, Busy(0, PostWake), None)
    ensures Reach(ManyProcesses, Init(false, 0), u) && u.clock == 0 && Stage(u, CLAIMED, Busy(0, Latest), None)
  {
    u := Moves(t, 0, true);
  }

  lemma {:induction false} ReachesClaim(t: System, p: nat) returns (u: System)
    requires Reach(ManyProcesses, Init(false, 0), t) && t.row == Some(RECEIVED) && !WakeSent(t)
    requires p in t.processes && t.processes[p].pass == Busy(t.clock, FindReceived)
    ensures Reach(ManyProcesses, Init(false, 0), u) && u.row == Some(RECEIVED) && Unmoved(t, u, p)
    ensures u.processes[p].pass == Busy(t.clock, Claiming)
  {
    u := Moves(t, p, true);
    u := Moves(u, p, true);
  }

  // From its start to FindReceived, a pass that picks nothing but takes back expired claims.
  lemma {:induction false} Skips(t: System, p: nat, row: Row) returns (u: System)
    requires Reach(ManyProcesses, Init(false, 0), t) && t.row == Some(row) && (row == RECEIVED || (row == CLAIMED && t.clock >= QUEUE_RESERVATION_MS))
    requires p in t.processes && t.processes[p].pass == Busy(t.clock, FindExpired)
    ensures Reach(ManyProcesses, Init(false, 0), u) && u.row == Some(RECEIVED) && Unmoved(t, u, p)
    ensures u.processes[p].pass == Busy(t.clock, FindReceived)
  {
    u := Moves(t, p, false);
    u := Moves(u, p, false);
    u := Moves(u, p, false);
  }

  // Only row and pass of p differ.
  ghost predicate Unmoved(t: System, u: System, p: nat) {
    match (ProcessOf(t, p), ProcessOf(u, p))
    case (Some(_), Some(after)) =>
      && u.processes == t.processes[p := after]
      && (u.clock, u.ambient, u.declined, WakeSent(u)) == (t.clock, t.ambient, t.declined, WakeSent(t))
    case _ => false
  }

  lemma {:induction false} Moves(t: System, p: nat, pick: bool) returns (u: System)
    requires Reach(ManyProcesses, Init(false, 0), t) && p in t.processes && t.processes[p].pass.Busy?
    requires AdvanceStep(t, p, t.processes[p].pass.now, t.processes[p].pass.pc, pick).Some? && !t.processes[p].pass.pc.Promoting?
    ensures Reach(ManyProcesses, Init(false, 0), u)
    ensures u == AdvanceStep(t, p, t.processes[p].pass.now, t.processes[p].pass.pc, pick).value
  {
    u := Go(ManyProcesses, Init(false, 0), t, Reconcile(p, Advance(pick)));
  }

  // Process 1 takes the expired claim back and is about to claim the message itself.
  lemma {:induction false} SecondReclaims(t: System) returns (u: System)
    requires Reach(ManyProcesses, Init(false, 0), t) && t.clock == 0 && Stage(t, CLAIMED, Busy(0, Latest), None)
    ensures Reach(ManyProcesses, Init(false, 0), u) && u.clock == QUEUE_RESERVATION_MS
    ensures Stage(u, RECEIVED, Busy(0, Latest), Some(Busy(QUEUE_RESERVATION_MS, Claiming)))
  {
    var hz, s := ManyProcesses, Init(false, 0);
    u := Go(hz, s, t, Tick(QUEUE_RESERVATION_MS));
    u := Go(hz, s, u, Launch(1));
    u := Go(hz, s, u, Reconcile(1, Begin));
    u := Skips(u, 1, CLAIMED);
    u := ReachesClaim(u, 1);
  }

  // Process 0 finds its claim gone, process 1 claims, and process 0 abandons the other's claim.
  lemma {:induction false} FirstAbandons(t: System) returns (u: System)
    requires Reach(ManyProcesses, Init(false, 0), t) && t.clock == QUEUE_RESERVATION_MS
    requires Stage(t, RECEIVED, Busy(0, Latest), Some(Busy(QUEUE_RESERVATION_MS, Claiming)))
    ensures Reach(ManyProcesses, Init(false, 0), u) && IsIgnored(u.row) && !WakeSent(u) && !u.declined
  {
    u := Moves(t, 0, true);
    u := SecondClaims(u);
    u := Moves(u, 0, true);
  }

  lemma {:induction false} SecondClaims(t: System) returns (u: System)
    requires Reach(ManyProcesses, Init(false, 0), t) && t.clock == QUEUE_RESERVATION_MS
    requires Stage(t, RECEIVED, Busy(0, Abandoning(true)), Some(Busy(QUEUE_RESERVATION_MS, Claiming)))
    ensures Reach(ManyProcesses, Init(false, 0), u) && IsQueueing(u.row) && u.row.value.runId.None? && !WakeSent(u) && !u.declined
    ensures 0 in u.processes && u.processes[0].pass == Busy(0, Abandoning(true))
  {
    u := Moves(t, 1, true);
  }

  ghost predicate LosesNothing(allowed: set<Hazard>) {
    forall ambient, clock, actions :: Exec(Init(ambient, clock), actions).Some? && CarefulRun(Init(ambient, clock), actions, allowed)
      ==> !Lost(Exec(Init(ambient, clock), actions).value, actions)
  }

  /** Whatever other hazards a run may show, no event is lost exactly if there is one process. */
  lemma {:induction false} NothingLostExactly(allowed: set<Hazard>)
    ensures LosesNothing(allowed) <==> ManyProcesses !in allowed
  {
    if ManyProcesses in allowed {
      var t := FirstStalls();
      t := SecondReclaims(t);
      t := FirstAbandons(t);
      var actions :| CarefulRun(Init(false, 0), actions, {ManyProcesses}) && Exec(Init(false, 0), actions) == Some(t);
      MoreAllowed(Init(false, 0), actions, ManyProcesses, allowed);
      DecisionsAreActions(Init(false, 0), actions);
      assert Lost(Exec(Init(false, 0), actions).value, actions);
    } else {
      forall ambient, clock, actions | Exec(Init(ambient, clock), actions).Some? && CarefulRun(Init(ambient, clock), actions, allowed)
        ensures !Lost(Exec(Init(ambient, clock), actions).value, actions)
      {
        NothingLost(ambient, clock, actions, allowed);
      }
    }
  }

  // ---------------------------------------------------------------- an ended run can be answered

  // The row waits to be delivered, its run has ended, and only row, pass of p and calls differ from s.
  ghost predicate Awaits(s: System, t: System, p: nat, pc: PassPc) {
    (t.row, t.runs, t.ambient, t.calls, t.clock, PassOf(t, p)) == (s.row, s.runs, s.ambient, s.calls, s.clock, Some(Busy(s.clock, pc)))
  }

  predicate RunFailed(s: System)
    requires s.row.Some? && s.row.value.runId.Some? && s.row.value.runId.value < |s.runs|
  {
    !s.runs[s.row.value.runId.value].Completed?
  }

  ghost predicate Answerable(s: System) {
    && s.row.Some? && s.row.value.status.Running? && s.row.value.handle.None? && Due(s.row.value, s.clock)
    && s.row.value.runId.Some? && s.row.value.runId.value < |s.runs| && !s.runs[s.row.value.runId.value].Active?
  }

  lemma {:induction false} Drives(s: System, t: System, p: nat, move: PassAction) returns (u: System)
    requires Reach(ManyProcesses, s, t) && p in t.processes && PassStep(t, p, move).Some?
    requires !(t.processes[p].pass.Busy? && t.processes[p].pass.pc.Promoting?)
    ensures Reach(ManyProcesses, s, u) && u == PassStep(t, p, move).value
  {
    u := Go(ManyProcesses, s, t, Reconcile(p, move));
  }

  // A pass that picks only the linked row.
  lemma {:induction false} PicksLinked(s: System, p: nat) returns (u: System)
    requires Answerable(s) && p in s.processes && s.processes[p].pass.Idle?
    ensures Reach(ManyProcesses, s, u) && Awaits(s, u, p, FindLinked)
  {
    Start(ManyProcesses, s);
    u := Drives(s, s, p, Begin);
    u := Drives(s, u, p, Advance(false));
    u := PicksLater(s, u, p);
  }

  lemma {:induction false} PicksLater(s: System, t: System, p: nat) returns (u: System)
    requires Answerable(s) && Reach(ManyProcesses, s, t) && Awaits(s, t, p, ReclaimQueueing)
    ensures Reach(ManyProcesses, s, u) && Awaits(s, u, p, FindLinked)
  {
    u := Drives(s, t, p, Advance(false));
    u := Drives(s, u, p, Advance(false));
    u := Drives(s, u, p, Advance(false));
  }

  lemma {:induction false} Composes(s: System, t: System, p: nat) returns (u: System)
    requires Answerable(s) && Reach(ManyProcesses, s, t) && Awaits(s, t, p, FindLinked)
    ensures Reach(ManyProcesses, s, u)
    ensures Awaits(s, u, p, if s.ambient && RunFailed(s) then Silencing(true) else Reserving(RunFailed(s)))
  {
    u := Drives(s, t, p, Advance(true));
    u := Drives(s, u, p, Compose(s.ambient && RunFailed(s)));
  }

  // The delivery is reserved and the provider called.
  lemma {:induction false} CallsProvider(s: System, t: System, p: nat) returns (u: System)
    requires Answerable(s) && Reach(ManyProcesses, s, t) && Awaits(s, t, p, Reserving(RunFailed(s)))
    ensures Reach(ManyProcesses, s, u) && u.calls == s.calls + [if RunFailed(s) then FailureReply else CompletionReply]
    ensures u.row.Some? && p in u.processes && u.processes[p].pass == Busy(s.clock, Sending(RunFailed(s)))
  {
    u := Drives(s, t, p, Advance(true));
    u := Drives(s, u, p, Advance(true));
  }

  lemma {:induction false} Concludes(s: System, t: System, p: nat, handle: string, failed: bool) returns (u: System)
    requires Reach(ManyProcesses, s, t) && t.row.Some? && p in t.processes && t.processes[p].pass == Busy(s.clock, Sending(failed))
    ensures Reach(ManyProcesses, s, u) && u.calls == t.calls
    ensures u.row.Some? && u.row.value.status.Delivered? && u.row.value.handle == Some(handle)
  {
    u := Drives(s, t, p, Sent(handle));
    u := Records(s, u, p, handle);
  }

  lemma {:induction false} Records(s: System, t: System, p: nat, handle: string) returns (u: System)
    requires Reach(ManyProcesses, s, t) && t.row.Some? && p in t.processes && t.processes[p].pass == Busy(s.clock, Storing(handle))
    ensures Reach(ManyProcesses, s, u) && u.calls == t.calls
    ensures u.row.Some? && u.row.value.status.Delivered? && u.row.value.handle == Some(handle)
  {
    u := Drives(s, t, p, Advance(true));
    u := Drives(s, u, p, Advance(true));
  }

  /**
   From any state with a due row linked to an ended run, a pass of any process can deliver it: with
   one call of the provider, a failure exactly if the run did not complete, or in silence when an
   ambient message's run failed.
   */
  lemma {:induction false} EndedRunCanBeAnswered(s: System, p: nat, handle: string) returns (t: System, actions: seq<Action>)
    requires Answerable(s) && p in s.processes && s.processes[p].pass.Idle?
    ensures Exec(s, actions) == Some(t) && t.row.Some? && t.row.value.status.Delivered?
    ensures if s.ambient && RunFailed(s) then t.calls == s.calls && t.row.value.handle == Some("silent-failure")
            else t.calls == s.calls + [if RunFailed(s) then FailureReply else CompletionReply] && t.row.value.handle == Some(handle)
  {
    t := PicksLinked(s, p);
    t := Composes(s, t, p);
    if s.ambient && RunFailed(s) {
      t := Drives(s, t, p, Advance(true));
    } else {
      t := CallsProvider(s, t, p);
      t := Concludes(s, t, p, handle, RunFailed(s));
    }
    actions :| CarefulRun(s, actions, {ManyProcesses}) && Exec(s, actions) == Some(t);
  }
}
