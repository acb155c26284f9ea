/**
 What becomes of an event over every run of the protocol: it is answered only when its run has
 ended and according to how it ended, and an ambient message starts a run only if the judge said so.
 */
module TeamChatOutcomes {
  import opened Common
  import opened TeamChatRow
  import opened TeamChatProtocol
  import opened TeamChatDelivery

  // The run the row is linked to has ended.
  ghost predicate Ended(s: System) {
    IsLinked(s) && s.row.value.runId.value < |s.runs| && !s.runs[s.row.value.runId.value].Active?
  }

  ghost predicate Completes(s: System) {
    Ended(s) && s.runs[s.row.value.runId.value].Completed?
  }

  // Ended runs and linked rows stay what they are, and calls are not forgotten.
  ghost predicate Steady(s: System, t: System) {
    && t.ambient == s.ambient && s.calls <= t.calls
    && |s.runs| <= |t.runs| && (forall j :: 0 <= j < |s.runs| && !s.runs[j].Active? ==> t.runs[j] == s.runs[j])
    && (IsLinked(s) ==> IsLinked(t) && t.row.value.runId == s.row.value.runId)
  }

  predicate Decided(pc: PassPc) {
    pc.Composing? || pc.Silencing? || pc.Reserving? || pc.ReadHandle? || pc.Sending?
  }

  // A marker left without a call of the provider tells how the run ended.
  ghost predicate HandleFits(s: System, handle: string) {
    s.calls == [] ==>
      && (handle == "silent-failure" ==> s.ambient && !Completes(s))
      && (handle == "silent" ==> s.ambient && Completes(s))
  }

  ghost predicate PcFits(s: System, pc: PassPc) {
    && (InDelivery(pc) || pc.RetryFinish? ==> Ended(s))
    && (Decided(pc) ==> (pc.failed <==> !Completes(s)))
    && (pc.Silencing? ==> s.ambient)
    && (pc.Reserving? || pc.ReadHandle? || pc.Sending? ==> !(s.ambient && pc.failed))
    && (pc.Sending? || pc.Storing? ==> s.calls != [])
    && (CarriesHandle(pc) ==> HandleFits(s, pc.handle))
  }

  ghost predicate PassFits(s: System, pass: Pass) {
    pass.Busy? ==> PcFits(s, pass.pc)
  }

  ghost predicate RowFits(s: System) {
    && (Past(s) || (s.row.Some? && s.row.value.handle.Some?) ==> Ended(s))
    && (s.row.Some? && s.row.value.handle.Some? ==> HandleFits(s, s.row.value.handle.value))
  }

  ghost predicate CallsFit(s: System) {
    s.calls != [] ==>
      && Ended(s)
      && forall call :: call in s.calls ==> (call.FailureReply? <==> !Completes(s)) && (call.FailureReply? ==> !s.ambient)
  }

  ghost predicate Fitting(s: System) {
    && RowFits(s) && CallsFit(s)
    && forall p :: p in s.processes ==> PassFits(s, s.processes[p].pass)
  }

  lemma {:induction false} EndedStays(s: System, t: System)
    requires Steady(s, t) && Ended(s)
    ensures Ended(t) && (Completes(t) <==> Completes(s))
  {
  }

  lemma {:induction false} PassStays(s: System, t: System, pass: Pass)
    requires Steady(s, t) && PassFits(s, pass)
    requires pass.Busy? && CarriesHandle(pass.pc) ==> Ended(s)
    ensures PassFits(t, pass)
  {
    if Ended(s) {
      EndedStays(s, t);
    }
  }

  // The row is as it was, or nowhere near delivery.
  ghost predicate RowStill(row: Option<Row>, row': Option<Row>) {
    row' == row || (row'.Some? && !Linked(row'.value.status) && row'.value.handle.None?)
  }

  lemma {:induction false} StillFits(s: System, t: System)
    requires Steady(s, t) && t.calls == s.calls && RowStill(s.row, t.row) && RowFits(s) && CallsFit(s)
    ensures RowFits(t) && CallsFit(t)
  {
    if Ended(s) {
      EndedStays(s, t);
    }
  }

  // ---------------------------------------------------------------- steps outside the passes

  lemma {:induction false} ReceiveStill(s: System, p: nat, h: nat, act: HandlerAction)
    requires RowInv(s.row) && p in s.processes && ReceiveStep(s, p, h, act).Some?
    ensures
      var t := ReceiveStep(s, p, h, act).value;
      RowStill(s.row, t.row) && Steady(s, t) && t.calls == s.calls
      && t.processes.Keys == s.processes.Keys && forall q :: q in s.processes ==> t.processes[q].pass == s.processes[q].pass
  {
  }

  lemma {:induction false} WakeStill(s: System, p: nat, h: nat, act: HandlerAction)
    requires RowInv(s.row) && p in s.processes && WakeStep(s, p, h, act).Some?
    ensures
      var t := WakeStep(s, p, h, act).value;
      RowStill(s.row, t.row) && Steady(s, t) && t.calls == s.calls
      && t.processes.Keys == s.processes.Keys && forall q :: q in s.processes ==> t.processes[q].pass == s.processes[q].pass
  {
  }

  lemma {:induction false} MainStill(s: System, p: nat, h: nat, act: HandlerAction)
    requires RowInv(s.row) && p in s.processes && MainStep(s, p, h, act).Some?
    ensures
      var t := MainStep(s, p, h, act).value;
      RowStill(s.row, t.row) && Steady(s, t) && t.calls == s.calls
      && t.processes.Keys == s.processes.Keys && forall q :: q in s.processes ==> t.processes[q].pass == s.processes[q].pass
  {
  }

  lemma {:induction false} OutsideStill(s: System, a: Action)
    requires RowInv(s.row) && Step(s, a).Some? && !a.Handle? && !a.Reconcile?
    ensures
      var t := Step(s, a).value;
      RowStill(s.row, t.row) && Steady(s, t) && t.calls == s.calls
      && forall q :: q in t.processes ==> t.processes[q].pass.Idle? || (q in s.processes && t.processes[q].pass == s.processes[q].pass)
  {
  }

  // ---------------------------------------------------------------- steps of a pass

  lemma {:induction false} WriteRowFits(s: System, now: int, pc: PassPc)
    requires Inv(s) && PassInv(s, Busy(now, pc)) && RowFits(s) && PcFits(s, pc) && RowMove(s, now, pc).Some?
    ensures
      var t := s.(row := RowMove(s, now, pc).value.0);
      Steady(s, t) && RowFits(t)
  {
    WriteRow(s, now, pc);
  }

  lemma {:induction false} WritePassFits(s: System, now: int, pc: PassPc)
    requires PcFits(s, pc) && RowMove(s, now, pc).Some? && Steady(s, s.(row := RowMove(s, now, pc).value.0))
    ensures PassFits(s.(row := RowMove(s, now, pc).value.0), RowMove(s, now, pc).value.1)
  {
    if Ended(s) {
      EndedStays(s, s.(row := RowMove(s, now, pc).value.0));
    }
  }

  lemma {:induction false} ReadFits(s: System, process: Process, now: int, pc: PassPc, pick: bool)
    requires Inv(s) && RowFits(s) && CallsFit(s) && PcFits(s, pc) && ReadMove(s, process, now, pc, pick).Some?
    ensures
      var pass := ReadMove(s, process, now, pc, pick).value;
      var t := s.(calls := CallsAfter(s.calls, pass));
      Steady(s, t) && RowFits(t) && CallsFit(t) && PassFits(t, pass)
  {
    if Calls(ReadMove(s, process, now, pc, pick).value) {
      CallFits(s, process, now, pc, pick);
    } else {
      ReadPassFits(s, process, now, pc, pick);
    }
  }

  lemma {:induction false} CallFits(s: System, process: Process, now: int, pc: PassPc, pick: bool)
    requires RowFits(s) && CallsFit(s) && PcFits(s, pc) && ReadMove(s, process, now, pc, pick).Some?
    requires Calls(ReadMove(s, process, now, pc, pick).value)
    ensures
      var pass := ReadMove(s, process, now, pc, pick).value;
      var t := s.(calls := CallsAfter(s.calls, pass));
      Steady(s, t) && RowFits(t) && CallsFit(t) && PassFits(t, pass)
  {
    assert pc.ReadHandle?;
  }

  lemma {:induction false} ReadPassFits(s: System, process: Process, now: int, pc: PassPc, pick: bool)
    requires Inv(s) && RowFits(s) && PcFits(s, pc) && ReadMove(s, process, now, pc, pick).Some?
    requires !Calls(ReadMove(s, process, now, pc, pick).value)
    ensures PassFits(s, ReadMove(s, process, now, pc, pick).value)
  {
    if !pc.FindLinked? && !InDelivery(pc) && !pc.RetryRead? {
      EarlyReads(s, process, now, pc, pick);
    }
  }

  // Before delivery a read leads nowhere near it.
  lemma {:induction false} EarlyReads(s: System, process: Process, now: int, pc: PassPc, pick: bool)
    requires ReadMove(s, process, now, pc, pick).Some? && !pc.FindLinked? && !InDelivery(pc) && !pc.RetryRead?
    ensures
      var pass := ReadMove(s, process, now, pc, pick).value;
      pass.Busy? ==> !InDelivery(pass.pc) && !pass.pc.RetryFinish?
  {
  }

  lemma {:induction false} FreeFits(s: System, now: int, pc: PassPc, move: PassAction)
    requires PcFits(s, pc) && FreeMove(s.ambient, now, pc, move).Some?
    ensures PassFits(s, FreeMove(s.ambient, now, pc, move).value)
  {
  }

  // One step of the pass of p, from what it does to the system and to the pass.
  lemma {:induction false} PassStepFits(s: System, t: System, p: nat)
    requires Fitting(s) && p in s.processes && Steady(s, t) && RowFits(t) && CallsFit(t)
    requires t.processes.Keys == s.processes.Keys && PassFits(t, t.processes[p].pass)
    requires forall q :: q in s.processes && q != p ==> t.processes[q].pass == s.processes[q].pass
    ensures Fitting(t)
  {
    forall q | q in t.processes && q != p
      ensures PassFits(t, t.processes[q].pass)
    {
      CarriesEnded(s, s.processes[q].pass);
      PassStays(s, t, s.processes[q].pass);
    }
  }

  lemma {:induction false} CarriesEnded(s: System, pass: Pass)
    requires PassFits(s, pass)
    ensures pass.Busy? && CarriesHandle(pass.pc) ==> Ended(s)
  {
  }

  lemma {:induction false} WriteStepFits(s: System, p: nat, now: int, pc: PassPc)
    requires Inv(s) && Fitting(s) && p in s.processes && s.processes[p].pass == Busy(now, pc) && RowMove(s, now, pc).Some?
    ensures
      var write := RowMove(s, now, pc).value;
      var t := Put(s, p, s.processes[p].(pass := write.1)).(row := write.0);
      Fitting(t) && Steady(s, t)
  {
    var write := RowMove(s, now, pc).value;
    var t := Put(s, p, s.processes[p].(pass := write.1)).(row := write.0);
    assert PassInv(s, s.processes[p].pass) && PassFits(s, s.processes[p].pass);
    WriteRowFits(s, now, pc);
    WritePassFits(s, now, pc);
    SameFits(s.(row := write.0), t);
    SamePassFits(s.(row := write.0), t, write.1);
    CallsStay(s, t);
    PassStepFits(s, t, p);
  }

  lemma {:induction false} CallsStay(s: System, t: System)
    requires Steady(s, t) && t.calls == s.calls && CallsFit(s)
    ensures CallsFit(t)
  {
    if Ended(s) {
      EndedStays(s, t);
    }
  }

  lemma {:induction false} SameFits(s: System, t: System)
    requires t.row == s.row && t.runs == s.runs && t.calls == s.calls && t.ambient == s.ambient
    ensures RowFits(s) ==> RowFits(t)
    ensures CallsFit(s) ==> CallsFit(t)
  {
  }

  lemma {:induction false} ReadStepFits(s: System, p: nat, now: int, pc: PassPc, pick: bool)
    requires Inv(s) && Fitting(s) && p in s.processes && s.processes[p].pass == Busy(now, pc)
    requires ReadMove(s, s.processes[p], now, pc, pick).Some?
    ensures
      var t := Read(s, p, ReadMove(s, s.processes[p], now, pc, pick).value);
      Fitting(t) && Steady(s, t)
  {
    var pass := ReadMove(s, s.processes[p], now, pc, pick).value;
    var t := Read(s, p, pass);
    assert PassFits(s, s.processes[p].pass);
    ReadFits(s, s.processes[p], now, pc, pick);
    SameFits(s.(calls := t.calls), t);
    SamePassFits(s.(calls := t.calls), t, pass);
    PassStepFits(s, t, p);
  }

  lemma {:induction false} AdvanceFits(s: System, p: nat, now: int, pc: PassPc, pick: bool)
    requires Inv(s) && Fitting(s) && p in s.processes && s.processes[p].pass == Busy(now, pc) && AdvanceStep(s, p, now, pc, pick).Some?
    ensures Fitting(AdvanceStep(s, p, now, pc, pick).value) && Steady(s, AdvanceStep(s, p, now, pc, pick).value)
  {
    if pc.CreateRun? || pc.CancelRun? {
      RunStepFits(s, p, now, pc, pick);
    } else if RowMove(s, now, pc).Some? {
      WriteStepFits(s, p, now, pc);
    } else {
      ReadStepFits(s, p, now, pc, pick);
    }
  }

  lemma {:induction false} RunStepSteady(s: System, p: nat, now: int, pc: PassPc, pick: bool)
    requires p in s.processes && s.processes[p].pass == Busy(now, pc) && (pc.CreateRun? || pc.CancelRun?)
    ensures
      var t := AdvanceStep(s, p, now, pc, pick).value;
      && Steady(s, t) && t.row == s.row && t.calls == s.calls
      && t.processes.Keys == s.processes.Keys && t.processes[p].pass.Busy?
      && !InDelivery(t.processes[p].pass.pc) && !t.processes[p].pass.pc.RetryFinish?
      && forall q :: q in s.processes && q != p ==> t.processes[q].pass == s.processes[q].pass
  {
  }

  lemma {:induction false} RunStepFits(s: System, p: nat, now: int, pc: PassPc, pick: bool)
    requires Inv(s) && Fitting(s) && p in s.processes && s.processes[p].pass == Busy(now, pc) && (pc.CreateRun? || pc.CancelRun?)
    ensures Fitting(AdvanceStep(s, p, now, pc, pick).value) && Steady(s, AdvanceStep(s, p, now, pc, pick).value)
  {
    var t := AdvanceStep(s, p, now, pc, pick).value;
    RunStepSteady(s, p, now, pc, pick);
    StillFits(s, t);
    PassStepFits(s, t, p);
  }

  lemma {:induction false} RetryFits(s: System, p: nat, attempts: nat)
    requires Inv(s) && Fitting(s) && p in s.processes && PassStep(s, p, Retry(attempts)).Some?
    ensures Fitting(PassStep(s, p, Retry(attempts)).value) && Steady(s, PassStep(s, p, Retry(attempts)).value)
  {
    var t := PassStep(s, p, Retry(attempts)).value;
    assert Steady(s, t) && RowFits(t) && CallsFit(t);
    PassStepFits(s, t, p);
  }

  lemma {:induction false} SentFits(s: System, p: nat, handle: string)
    requires Fitting(s) && p in s.processes && PassStep(s, p, Sent(handle)).Some?
    ensures Fitting(PassStep(s, p, Sent(handle)).value) && Steady(s, PassStep(s, p, Sent(handle)).value)
  {
    var t := PassStep(s, p, Sent(handle)).value;
    assert PassFits(s, s.processes[p].pass) && t.row == s.row;
    PassStepFits(s, t, p);
  }

  lemma {:induction false} ReconcileFits(s: System, p: nat, move: PassAction)
    requires Inv(s) && Fitting(s) && p in s.processes && PassStep(s, p, move).Some?
    ensures Fitting(PassStep(s, p, move).value) && Steady(s, PassStep(s, p, move).value)
  {
    var pass := s.processes[p].pass;
    if move.Sent? {
      SentFits(s, p, move.handle);
    } else if move.Retry? {
      RetryFits(s, p, move.attempts);
    } else if move.Advance? {
      AdvanceFits(s, p, pass.now, pass.pc, move.pick);
    } else {
      FreeStepFits(s, p, move);
    }
  }

  lemma {:induction false} FreeStepFits(s: System, p: nat, move: PassAction)
    requires Fitting(s) && p in s.processes && PassStep(s, p, move).Some? && !move.Sent? && !move.Retry? && !move.Advance?
    ensures Fitting(PassStep(s, p, move).value) && Steady(s, PassStep(s, p, move).value)
  {
    var t := PassStep(s, p, move).value;
    var pass := s.processes[p].pass;
    assert PassFits(s, pass);
    if pass.Busy? {
      FreeFits(s, pass.now, pass.pc, move);
    }
    assert t.row == s.row && t.runs == s.runs && t.calls == s.calls && t.ambient == s.ambient;
    StillFits(s, t);
    SamePassFits(s, t, t.processes[p].pass);
    PassStepFits(s, t, p);
  }

  // Only row, runs, calls and kind of message matter.
  lemma {:induction false} SamePassFits(s: System, t: System, pass: Pass)
    requires t.row == s.row && t.runs == s.runs && t.calls == s.calls && t.ambient == s.ambient && PassFits(s, pass)
    ensures PassFits(t, pass)
  {
  }

  lemma {:induction false} OtherFits(s: System, t: System)
    requires Fitting(s) && Steady(s, t) && t.calls == s.calls && RowStill(s.row, t.row)
    requires forall q :: q in t.processes ==> t.processes[q].pass.Idle? || (q in s.processes && t.processes[q].pass == s.processes[q].pass)
    ensures Fitting(t)
  {
    StillFits(s, t);
    forall q | q in t.processes
      ensures PassFits(t, t.processes[q].pass)
    {
      if q in s.processes {
        CarriesEnded(s, s.processes[q].pass);
        PassStays(s, t, s.processes[q].pass);
      }
    }
  }

  lemma {:induction false} StepFits(s: System, a: Action)
    requires Inv(s) && Fitting(s) && Step(s, a).Some?
    ensures Fitting(Step(s, a).value) && Steady(s, Step(s, a).value)
  {
    var t := Step(s, a).value;
    if a.Reconcile? {
      ReconcileFits(s, a.p, a.move);
    } else {
      StillStep(s, a);
      OtherFits(s, t);
    }
  }

  lemma {:induction false} RunFits(s: System, actions: seq<Action>)
    requires Inv(s) && Fitting(s) && Exec(s, actions).Some?
    ensures Inv(Exec(s, actions).value) && Fitting(Exec(s, actions).value)
    decreases |actions|
  {
    if actions != [] {
      StepKeeps(s, actions[0]);
      StepFits(s, actions[0]);
      RunFits(Step(s, actions[0]).value, actions[1..]);
    }
  }

  /**
   In every state of every run: a row on its way out or with a handle is linked to a run that has
   ended; the provider is called with a failure exactly for a run that did not complete, and not
   for an ambient message; and a row silenced without a call is an ambient one, marked as a failure
   exactly if its run did not complete.
   */
  lemma {:induction false} RepliesFollowTheRun(ambient: bool, clock: int, actions: seq<Action>)
    requires Exec(Init(ambient, clock), actions).Some?
    ensures
      var s := Exec(Init(ambient, clock), actions).value;
      && (s.row.Some? && (s.row.value.status.Delivering? || s.row.value.status.Delivered? || s.row.value.handle.Some?) ==>
            s.row.value.runId.Some? && s.row.value.runId.value < |s.runs| && !s.runs[s.row.value.runId.value].Active?)
      && (forall call :: call in s.calls ==>
            s.row.Some? && s.row.value.runId.Some? && s.row.value.runId.value < |s.runs|
            && match s.runs[s.row.value.runId.value]
               case Active => false
               case Completed => call.CompletionReply?
               case Failed => call.FailureReply? && !s.ambient
               case Cancelled => call.FailureReply? && !s.ambient)
      && (s.calls == [] && s.row.Some? && s.row.value.handle.Some? ==>
            match s.runs[s.row.value.runId.value]
            case Active => false
            case Completed => s.row.value.handle.value != "silent-failure" && (s.row.value.handle.value == "silent" ==> s.ambient)
            case Failed => s.row.value.handle.value != "silent" && (s.row.value.handle.value == "silent-failure" ==> s.ambient)
            case Cancelled => s.row.value.handle.value != "silent" && (s.row.value.handle.value == "silent-failure" ==> s.ambient))
  {
    InitInv(ambient, clock);
    RunFits(Init(ambient, clock), actions);
  }

  predicate Delivers(row: Option<Row>) {
    row.Some? && row.value.status.Delivering?
  }

  predicate Handled(row: Option<Row>) {
    row.Some? && row.value.handle.Some?
  }

  // The provider is called, the delivery reserved, or the row marked.
  predicate Answers(s: System, t: System) {
    t.calls != s.calls || (Delivers(t.row) && !Delivers(s.row)) || (Handled(t.row) && !Handled(s.row))
  }

  lemma {:induction false} WriteAnswers(s: System, now: int, pc: PassPc)
    requires RowInv(s.row) && RowMove(s, now, pc).Some?
    ensures
      var row := RowMove(s, now, pc).value.0;
      (Delivers(row) && !Delivers(s.row)) || (Handled(row) && !Handled(s.row)) ==> NeedsLinked(pc)
  {
  }

  lemma {:induction false} AdvanceAnswers(s: System, p: nat, now: int, pc: PassPc, pick: bool)
    requires RowInv(s.row) && p in s.processes && s.processes[p].pass == Busy(now, pc) && AdvanceStep(s, p, now, pc, pick).Some?
    ensures Answers(s, AdvanceStep(s, p, now, pc, pick).value) ==> NeedsLinked(pc)
  {
    if RowMove(s, now, pc).Some? {
      WriteAnswers(s, now, pc);
    } else if !pc.CreateRun? && !pc.CancelRun? {
      ReadSends(s, s.processes[p], now, pc, pick);
    }
  }

  lemma {:induction false} OtherMovesSilent(s: System, p: nat, move: PassAction)
    requires p in s.processes && PassStep(s, p, move).Some? && !move.Advance?
    ensures !Answers(s, PassStep(s, p, move).value)
  {
  }

  lemma {:induction false} ReconcileAnswers(s: System, p: nat, move: PassAction)
    requires Inv(s) && p in s.processes && PassStep(s, p, move).Some?
    ensures Answers(s, PassStep(s, p, move).value) ==> s.processes[p].pass.Busy? && NeedsLinked(s.processes[p].pass.pc)
  {
    if move.Advance? {
      AdvanceAnswers(s, p, s.processes[p].pass.now, s.processes[p].pass.pc, move.pick);
    } else {
      OtherMovesSilent(s, p, move);
    }
  }

  /** Whatever step calls the provider, reserves the delivery or marks the row, the linked run had ended before it. */
  lemma {:induction false} EndedBeforeAnswering(ambient: bool, clock: int, actions: seq<Action>, a: Action)
    requires Exec(Init(ambient, clock), actions).Some? && Step(Exec(Init(ambient, clock), actions).value, a).Some?
    requires Answers(Exec(Init(ambient, clock), actions).value, Step(Exec(Init(ambient, clock), actions).value, a).value)
    ensures
      var s := Exec(Init(ambient, clock), actions).value;
      s.row.Some? && s.row.value.runId.Some? && s.row.value.runId.value < |s.runs| && !s.runs[s.row.value.runId.value].Active?
  {
    var s := Exec(Init(ambient, clock), actions).value;
    InitInv(ambient, clock);
    RunFits(Init(ambient, clock), actions);
    if a.Reconcile? {
      ReconcileAnswers(s, a.p, a.move);
      assert PassFits(s, s.processes[a.p].pass);
    } else {
      StillStep(s, a);
    }
  }

  // Steps outside the passes answer nothing.
  lemma {:induction false} StillStep(s: System, a: Action)
    requires RowInv(s.row) && Step(s, a).Some? && !a.Reconcile?
    ensures
      var t := Step(s, a).value;
      && RowStill(s.row, t.row) && Steady(s, t) && t.calls == s.calls
      && forall q :: q in t.processes ==> t.processes[q].pass.Idle? || (q in s.processes && t.processes[q].pass == s.processes[q].pass)
  {
    if !a.Handle? {
      OutsideStill(s, a);
    } else if IsReceive(a.act) {
      ReceiveStill(s, a.p, a.h, a.act);
    } else if IsWake(a.act) {
      WakeStill(s, a.p, a.h, a.act);
    } else {
      MainStill(s, a.p, a.h, a.act);
    }
  }
}
