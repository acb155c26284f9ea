/**
 What holds over every run of the protocol, for any number of bridge processes, with
 crashes and retries anywhere: a reply reaches the provider at most once, a linked row only
 moves forward, and every agent attempt for the event yields the same run.
 */
module TeamChatDelivery {
  import opened Common
  import opened TeamChatRow
  import opened TeamChatProtocol

  // The pass has reserved the delivery and has not called the provider yet.
  predicate Sends(pass: Pass) {
    pass.Busy? && pass.pc.ReadHandle?
  }

  // The pass is calling the provider.
  predicate Calls(pass: Pass) {
    pass.Busy? && pass.pc.Sending?
  }

  // pcs that write the row by id alone, or lead there
  predicate NeedsLinked(pc: PassPc) {
    InDelivery(pc) || pc.RetryFinish?
  }

  ghost predicate RowInv(row: Option<Row>) {
    row.Some? ==>
      && (row.value.runId.Some? <==> Linked(row.value.status))
      && (row.value.handle.Some? ==> Linked(row.value.status))
      && (row.value.status.Queueing? ==> row.value.reason.Agent?)
  }

  predicate HoldsRun(pc: PassPc) {
    pc.FinalWake? || pc.CancelRun? || pc.Linking?
  }

  // Handles the bridge writes without having posted anything.
  predicate Marker(handle: string) {
    handle == "silent" || handle == "silent-failure" || handle == "unconfirmed"
  }

  predicate CarriesHandle(pc: PassPc) {
    pc.Storing? || pc.Finishing? || pc.RetryFinish?
  }

  ghost predicate PassInv(s: System, pass: Pass) {
    pass.Busy? ==>
      && (CarriesHandle(pass.pc) ==> Marker(pass.pc.handle) || |s.calls| == 1)
      && (pass.pc.Sending? ==> |s.calls| == 1)
      && (NeedsLinked(pass.pc) ==> IsLinked(s))
      && (HoldsRun(pass.pc) ==> AgentNonce in s.thread && s.thread[AgentNonce] == pass.pc.run)
  }

  predicate PastRow(row: Option<Row>) {
    row.Some? && (row.value.status.Delivering? || row.value.status.Delivered?)
  }

  predicate Past(s: System) {
    PastRow(s.row)
  }

  ghost predicate HandleInv(s: System) {
    s.row.Some? && s.row.value.handle.Some? ==> Marker(s.row.value.handle.value) || |s.calls| == 1
  }

  ghost predicate SendInv(s: System) {
    && |s.calls| <= 1
    && HandleInv(s)
    && (!Past(s) ==> |s.calls| == 0)
    && (forall p :: p in s.processes && Sends(s.processes[p].pass) ==> Past(s) && |s.calls| == 0)
    && (forall p, q :: p in s.processes && q in s.processes && Sends(s.processes[p].pass) && Sends(s.processes[q].pass) ==> p == q)
  }

  ghost predicate RunInv(s: System) {
    && s.agentRuns == (if AgentNonce in s.thread then {s.thread[AgentNonce]} else {})
    && (IsLinked(s) ==> AgentNonce in s.thread && s.row.value.runId == Some(s.thread[AgentNonce]))
  }

  ghost predicate Inv(s: System) {
    && RowInv(s.row)
    && (forall p :: p in s.processes ==> PassInv(s, s.processes[p].pass))
    && SendInv(s)
    && RunInv(s)
  }

  function Rank(status: Status): nat {
    match status
    case Running => 1
    case Delivering => 2
    case Delivered => 3
    case _ => 0
  }

  // What any step, hence any run, may do to a row.
  ghost predicate Forward(a: Option<Row>, b: Option<Row>) {
    a.Some? ==>
      && b.Some?
      && (a.value.runId.Some? ==> b.value.runId == a.value.runId && Rank(a.value.status) <= Rank(b.value.status))
      && (a.value.status.Ignored? ==> b.value.status.Ignored?)
  }

  lemma {:induction false} InitInv(ambient: bool, clock: int)
    ensures Inv(Init(ambient, clock))
  {
  }

  // The obligations of one step of process p, none of which looks at the other processes.
  ghost predicate Local(s: System, t: System, p: nat)
    requires p in s.processes
  {
    && p in t.processes
    && t.processes == s.processes[p := t.processes[p]]
    && RowInv(t.row)
    && Forward(s.row, t.row)
    && RunInv(t)
    && HandleInv(t)
    && (AgentNonce in s.thread ==> AgentNonce in t.thread && t.thread[AgentNonce] == s.thread[AgentNonce])
    && PassInv(t, t.processes[p].pass)
    && (Past(s) ==> Past(t))
    && (Sends(t.processes[p].pass) ==> Past(t) && |t.calls| == 0 && (Sends(s.processes[p].pass) || !Past(s)))
    && (|t.calls| == |s.calls| || (Sends(s.processes[p].pass) && !Sends(t.processes[p].pass) && |t.calls| == |s.calls| + 1))
  }

  lemma {:induction false} LocalKeeps(s: System, t: System, p: nat)
    requires Inv(s) && p in s.processes && Local(s, t, p)
    ensures Inv(t)
  {
    forall q | q in t.processes
      ensures PassInv(t, t.processes[q].pass)
    {
      assert q == p || t.processes[q] == s.processes[q];
    }
  }

  lemma {:induction false} UpsertKeeps(s: System, p: nat, h: nat, act: HandlerAction)
    requires Inv(s) && p in s.processes && ReceiveStep(s, p, h, act).Some? && (act.Upsert? || act.ExtendLease?)
    ensures Local(s, ReceiveStep(s, p, h, act).value, p)
  {
    assert PassInv(s, s.processes[p].pass);
  }

  lemma {:induction false} ReceiveKeeps(s: System, p: nat, h: nat, act: HandlerAction)
    requires Inv(s) && p in s.processes && ReceiveStep(s, p, h, act).Some?
    ensures Local(s, ReceiveStep(s, p, h, act).value, p)
  {
    assert PassInv(s, s.processes[p].pass);
    if act.Upsert? || act.ExtendLease? {
      UpsertKeeps(s, p, h, act);
    }
  }

  // A handler's step: beside its own state it may move a row that is not linked, and start a wake's run.
  ghost predicate HandlerOnly(s: System, t: System, p: nat)
    requires p in s.processes
  {
    && p in t.processes && t.processes == s.processes[p := t.processes[p]] && t.processes[p].pass == s.processes[p].pass
    && t.calls == s.calls && t.agentRuns == s.agentRuns
    && (AgentNonce in t.thread <==> AgentNonce in s.thread)
    && (AgentNonce in s.thread ==> t.thread[AgentNonce] == s.thread[AgentNonce])
    && RowInv(t.row)
    && (t.row == s.row
        || (s.row.Some? && t.row.Some? && !Linked(s.row.value.status) && !Linked(t.row.value.status) && !s.row.value.status.Ignored?))
  }

  lemma {:induction false} HandlerLocal(s: System, t: System, p: nat)
    requires Inv(s) && p in s.processes && HandlerOnly(s, t, p)
    ensures Local(s, t, p)
  {
    assert PassInv(s, s.processes[p].pass);
  }

  lemma {:induction false} WakeOnly(s: System, p: nat, h: nat, act: HandlerAction)
    requires RowInv(s.row) && p in s.processes && WakeStep(s, p, h, act).Some?
    ensures HandlerOnly(s, WakeStep(s, p, h, act).value, p)
  {
  }

  lemma {:induction false} WakeKeeps(s: System, p: nat, h: nat, act: HandlerAction)
    requires Inv(s) && p in s.processes && WakeStep(s, p, h, act).Some?
    ensures Local(s, WakeStep(s, p, h, act).value, p)
  {
    WakeOnly(s, p, h, act);
    HandlerLocal(s, WakeStep(s, p, h, act).value, p);
  }

  predicate TouchesRow(act: HandlerAction) {
    act.Renew? || act.Rehold? || act.Release?
  }

  lemma {:induction false} MainWriteKeeps(s: System, p: nat, h: nat, act: HandlerAction)
    requires Inv(s) && p in s.processes && MainStep(s, p, h, act).Some? && TouchesRow(act)
    ensures Local(s, MainStep(s, p, h, act).value, p)
  {
    MainOnly(s, p, h, act);
    HandlerLocal(s, MainStep(s, p, h, act).value, p);
  }

  lemma {:induction false} MainOnly(s: System, p: nat, h: nat, act: HandlerAction)
    requires RowInv(s.row) && p in s.processes && MainStep(s, p, h, act).Some? && TouchesRow(act)
    ensures HandlerOnly(s, MainStep(s, p, h, act).value, p)
  {
  }

  lemma {:induction false} MainKeeps(s: System, p: nat, h: nat, act: HandlerAction)
    requires Inv(s) && p in s.processes && MainStep(s, p, h, act).Some?
    ensures Local(s, MainStep(s, p, h, act).value, p)
  {
    if TouchesRow(act) {
      MainWriteKeeps(s, p, h, act);
    } else {
      assert PassInv(s, s.processes[p].pass);
      assert MainStep(s, p, h, act).value.row == s.row;
    }
  }

  // What a guarded update of the pass does to the row, and to the run it names.
  lemma {:induction false} WriteRow(s: System, now: int, pc: PassPc)
    requires RowInv(s.row) && RowMove(s, now, pc).Some? && (NeedsLinked(pc) ==> IsLinked(s))
    ensures
      var row := RowMove(s, now, pc).value.0;
      && RowInv(row) && Forward(s.row, row) && (PastRow(s.row) ==> PastRow(row))
      && (HandleInv(s) && (CarriesHandle(pc) ==> Marker(pc.handle) || |s.calls| == 1) ==> HandleInv(s.(row := row)))
      && (row.Some? && row.value.runId.Some? ==> row.value.runId == s.row.value.runId || (pc.Linking? && row.value.runId.value == pc.run))
  {
  }

  lemma {:induction false} WritePass(s: System, now: int, pc: PassPc)
    requires RowInv(s.row) && RowMove(s, now, pc).Some? && (NeedsLinked(pc) ==> IsLinked(s))
    ensures
      var (row, pass) := RowMove(s, now, pc).value;
      && (pass.Busy? ==> !HoldsRun(pass.pc) && (NeedsLinked(pass.pc) ==> NeedsLinked(pc)))
      && (pass.Busy? && CarriesHandle(pass.pc) ==> pc == Storing(pass.pc.handle))
      && (Sends(pass) ==> PastRow(row) && !PastRow(s.row))
  {
  }

  lemma {:induction false} WritePassInv(s: System, now: int, pc: PassPc)
    requires RowInv(s.row) && PassInv(s, Busy(now, pc)) && RowMove(s, now, pc).Some?
    ensures PassInv(s.(row := RowMove(s, now, pc).value.0), RowMove(s, now, pc).value.1)
  {
  }

  lemma {:induction false} WriteKeeps(s: System, p: nat, now: int, pc: PassPc)
    requires Inv(s) && p in s.processes && s.processes[p].pass == Busy(now, pc) && RowMove(s, now, pc).Some?
    ensures
      var write := RowMove(s, now, pc).value;
      Local(s, Put(s, p, s.processes[p].(pass := write.1)).(row := write.0), p)
  {
    assert PassInv(s, s.processes[p].pass);
    WriteRow(s, now, pc);
    WritePass(s, now, pc);
    WritePassInv(s, now, pc);
  }

  lemma {:induction false} ReadSends(s: System, process: Process, now: int, pc: PassPc, pick: bool)
    requires ReadMove(s, process, now, pc, pick).Some?
    ensures
      var pass := ReadMove(s, process, now, pc, pick).value;
      (Sends(pass) ==> Sends(Busy(now, pc))) && (Calls(pass) ==> Sends(Busy(now, pc)))
  {
  }

  lemma {:induction false} ReadPass(s: System, process: Process, now: int, pc: PassPc, pick: bool)
    requires RowInv(s.row) && RunInv(s) && HandleInv(s) && PassInv(s, Busy(now, pc)) && ReadMove(s, process, now, pc, pick).Some?
    requires !Calls(ReadMove(s, process, now, pc, pick).value)
    ensures PassInv(s, ReadMove(s, process, now, pc, pick).value)
  {
  }

  lemma {:induction false} ReadFacts(s: System, process: Process, now: int, pc: PassPc, pick: bool)
    requires RowInv(s.row) && RunInv(s) && HandleInv(s) && PassInv(s, Busy(now, pc)) && ReadMove(s, process, now, pc, pick).Some?
    requires Sends(Busy(now, pc)) ==> |s.calls| == 0
    ensures
      var pass := ReadMove(s, process, now, pc, pick).value;
      && PassInv(s.(calls := CallsAfter(s.calls, pass)), pass)
      && (Sends(pass) ==> Sends(Busy(now, pc))) && (Calls(pass) ==> Sends(Busy(now, pc)))
  {
    ReadSends(s, process, now, pc, pick);
    if !Calls(ReadMove(s, process, now, pc, pick).value) {
      ReadPass(s, process, now, pc, pick);
    }
  }

  lemma {:induction false} ReadKeeps(s: System, p: nat, now: int, pc: PassPc, pick: bool)
    requires Inv(s) && p in s.processes && s.processes[p].pass == Busy(now, pc)
    requires ReadMove(s, s.processes[p], now, pc, pick).Some?
    ensures Local(s, Read(s, p, ReadMove(s, s.processes[p], now, pc, pick).value), p)
  {
    assert PassInv(s, s.processes[p].pass);
    ReadFacts(s, s.processes[p], now, pc, pick);
  }

  lemma {:induction false} CreateKeeps(s: System, p: nat, now: int)
    requires Inv(s) && p in s.processes && s.processes[p].pass == Busy(now, CreateRun)
    ensures Local(s, Put(Send(s, AgentNonce), p, s.processes[p].(pass := Busy(now, FinalWake(RunFor(s, AgentNonce))))), p)
  {
    assert PassInv(s, s.processes[p].pass);
  }

  lemma {:induction false} AdvanceKeeps(s: System, p: nat, now: int, pc: PassPc, pick: bool)
    requires Inv(s) && p in s.processes && s.processes[p].pass == Busy(now, pc) && AdvanceStep(s, p, now, pc, pick).Some?
    ensures Local(s, AdvanceStep(s, p, now, pc, pick).value, p)
  {
    assert PassInv(s, s.processes[p].pass);
    if pc.CreateRun? {
      CreateKeeps(s, p, now);
    } else if !pc.CancelRun? {
      if RowMove(s, now, pc).Some? {
        WriteKeeps(s, p, now, pc);
      } else {
        ReadKeeps(s, p, now, pc, pick);
      }
    }
  }

  lemma {:induction false} FreeKeeps(s: System, now: int, pc: PassPc, move: PassAction)
    requires PassInv(s, Busy(now, pc)) && FreeMove(s.ambient, now, pc, move).Some?
    ensures PassInv(s, FreeMove(s.ambient, now, pc, move).value) && !Sends(FreeMove(s.ambient, now, pc, move).value)
  {
  }

  lemma {:induction false} SentKeeps(s: System, p: nat, handle: string)
    requires Inv(s) && p in s.processes && PassStep(s, p, Sent(handle)).Some?
    ensures Local(s, PassStep(s, p, Sent(handle)).value, p)
  {
    assert PassInv(s, s.processes[p].pass);
  }

  lemma {:induction false} RetryKeeps(s: System, p: nat, attempts: nat)
    requires Inv(s) && p in s.processes && PassStep(s, p, Retry(attempts)).Some?
    ensures Local(s, PassStep(s, p, Retry(attempts)).value, p)
  {
    assert PassInv(s, s.processes[p].pass);
  }

  lemma {:induction false} PassKeeps(s: System, p: nat, move: PassAction)
    requires Inv(s) && p in s.processes && PassStep(s, p, move).Some?
    ensures Local(s, PassStep(s, p, move).value, p)
  {
    var process := s.processes[p];
    assert PassInv(s, process.pass);
    if move.Advance? {
      AdvanceKeeps(s, p, process.pass.now, process.pass.pc, move.pick);
    } else if move.Sent? {
      SentKeeps(s, p, move.handle);
    } else if move.Retry? {
      RetryKeeps(s, p, move.attempts);
    } else if process.pass.Busy? {
      FreeKeeps(s, process.pass.now, process.pass.pc, move);
    }
  }

  lemma {:induction false} ProcessesKeep(s: System, a: Action)
    requires Inv(s) && Step(s, a).Some? && (a.Crash? || a.Launch? || a.Serve?)
    ensures Inv(Step(s, a).value) && Step(s, a).value.row == s.row
  {
  }

  lemma {:induction false} OutsideKeeps(s: System, a: Action)
    requires Inv(s) && Step(s, a).Some? && !a.Handle? && !a.Reconcile?
    ensures Inv(Step(s, a).value)
    ensures Forward(s.row, Step(s, a).value.row)
  {
    if a.Crash? || a.Launch? || a.Serve? {
      ProcessesKeep(s, a);
    }
  }

  lemma {:induction false} HandleKeeps(s: System, p: nat, h: nat, act: HandlerAction)
    requires Inv(s) && Step(s, Handle(p, h, act)).Some?
    ensures Inv(Step(s, Handle(p, h, act)).value)
    ensures Forward(s.row, Step(s, Handle(p, h, act)).value.row)
  {
    if IsReceive(act) {
      ReceiveKeeps(s, p, h, act);
    } else if IsWake(act) {
      WakeKeeps(s, p, h, act);
    } else {
      MainKeeps(s, p, h, act);
    }
    LocalKeeps(s, Step(s, Handle(p, h, act)).value, p);
  }

  lemma {:induction false} StepKeeps(s: System, a: Action)
    requires Inv(s) && Step(s, a).Some?
    ensures Inv(Step(s, a).value)
    ensures Forward(s.row, Step(s, a).value.row)
  {
    if a.Handle? {
      HandleKeeps(s, a.p, a.h, a.act);
    } else if a.Reconcile? {
      PassKeeps(s, a.p, a.move);
      LocalKeeps(s, Step(s, a).value, a.p);
    } else {
      OutsideKeeps(s, a);
    }
  }

  lemma {:induction false} RunKeeps(s: System, actions: seq<Action>)
    requires Inv(s) && Exec(s, actions).Some?
    ensures Inv(Exec(s, actions).value)
    ensures Forward(s.row, Exec(s, actions).value.row)
    decreases |actions|
  {
    if actions != [] {
      StepKeeps(s, actions[0]);
      RunKeeps(Step(s, actions[0]).value, actions[1..]);
    }
  }

  /**
   Over every run, with any number of processes: the provider is called at most once, and a
   handle other than the bridge's own markers is on record only if it was called.
   */
  lemma {:induction false} AtMostOneReply(ambient: bool, clock: int, actions: seq<Action>)
    requires Exec(Init(ambient, clock), actions).Some?
    ensures
      var s := Exec(Init(ambient, clock), actions).value;
      && |s.calls| <= 1
      && (s.row.Some? && s.row.value.handle.Some? && !Marker(s.row.value.handle.value) ==> |s.calls| == 1)
  {
    InitInv(ambient, clock);
    RunKeeps(Init(ambient, clock), actions);
  }

  /** Between any two states of a run the row only moves forward, and its run is the event's only agent run. */
  lemma {:induction false} LinkedRowsMoveForward(ambient: bool, clock: int, before: seq<Action>, after: seq<Action>)
    requires Exec(Init(ambient, clock), before).Some?
    requires Exec(Exec(Init(ambient, clock), before).value, after).Some?
    ensures
      var s := Exec(Init(ambient, clock), before).value;
      var t := Exec(s, after).value;
      && Forward(s.row, t.row)
      && |t.agentRuns| <= 1
      && (IsLinked(t) ==> t.agentRuns == {t.row.value.runId.value})
  {
    InitInv(ambient, clock);
    RunKeeps(Init(ambient, clock), before);
    RunKeeps(Exec(Init(ambient, clock), before).value, after);
  }
}
