/**
 The ownership and delivery protocol of one chat event, as a step relation. Any number of
 bridge processes run; each has one reconcile pass at a time, its in-flight set (here one
 flag, the set restricted to this event) and any number of inbound handlers. Every await in
 the source is a step boundary, every query one atomic step, and all choices the environment
 makes are parameters of the action, so `Step` is a partial function.
 */
module TeamChatProtocol {
  import opened Common
  import opened TeamChatRow

  // clientNonces of the two messages that may create a run for the event
  datatype Nonce = WakeNonce | AgentNonce

  datatype RunState = Active | Completed | Failed | Cancelled

  datatype Phase = QueuePhase | DeliveryPhase

  datatype PassPc =
    | FindExpired
    | ExpiredWake(reason: Reason)
    | ExpiredDecide(reason: Reason)
    | ExpiredIgnore
    | ExpiredRelease
    | ExpiredPromote
    | ReclaimQueueing
    | FindObserved
    | Judging
    | Promoting(why: Reason)
    | IgnoringAmbient
    | FindReceived
    | PreWake
    | Abandoning(claimed: bool)
    | Claiming
    | PostWake
    | Latest
    | LastWake
    | CreateRun
    | FinalWake(run: nat)
    | CancelRun(run: nat)
    | Linking(run: nat)
    | Enqueueing
    | FindLinked
    | Composing(failed: bool)
    | Silencing(failed: bool)
    | Reserving(failed: bool)
    | Posted(at: int)
    | GivingUp(at: int)
    | ReadHandle(failed: bool)
    | Sending(failed: bool)
    | Storing(handle: string)
    | Finishing(handle: string)
    | RetryRead(phase: Phase)
    | RetryFinish(phase: Phase, handle: string)
    | RetryUpdate(phase: Phase, seen: Status)

  datatype Pass = Idle | Busy(now: int, pc: PassPc)

  datatype Outcome = Woken | NotWoken | Threw

  // the promise returned by wakeMessageRoutines
  datatype Wake = Looking | ReservingWake | DeliveringWake | Settled(outcome: Outcome)

  // the lease heartbeat: Lost rejects with the reservation-lost error, Broken with any other
  datatype Beat = Beating | Lost | Broken

  datatype Main = Racing | Holding | Awaiting | ReleasingLost | ReleasingThrew | Resolving(woken: bool) | Leaving

  datatype Handler =
    | Arrived(now: int)
    | Taking(now: int)
    | Extending
    | Extended
    | Waking(wake: Wake, main: Main, beat: Beat, markedAt: int)
    | Stray(stray: Wake)

  datatype Process = Process(serving: bool, inFlight: bool, pass: Pass, handlers: map<nat, Handler>)

  // What the provider is asked to post: the run's answer, or that it could not complete.
  datatype Reply = CompletionReply | FailureReply

  // `calls` are the calls of the provider; `acted` and `declined` whether the judge has ever decided
  // to engage with the message, or not to.
  datatype System = System(
    ambient: bool,
    clock: int,
    row: Option<Row>,
    thread: map<Nonce, nat>,
    runs: seq<RunState>,
    agentRuns: set<nat>,
    calls: seq<Reply>,
    acted: bool,
    declined: bool,
    processes: map<nat, Process>)

  datatype HandlerAction =
    | Arrive | Upsert | Take | ExtendLease | MarkInFlight | Fail
    | FindRoutines(found: bool) | ReserveWakeRow | DeliverWake(acknowledged: bool) | WakeThrows
    | Renew | RenewThrows
    | SeeWake | SeeLost | SeeBroken | Rehold(attempted: bool) | Release | MainThrows | Leave

  // `pick`: the row made it into the batch; the others are the content of reads the model abstracts
  datatype PassAction =
    | Begin | Advance(pick: bool) | JudgeSkips | JudgeIgnores | JudgeActs(why: Reason)
    | Compose(silent: bool) | Sent(handle: string) | Retry(attempts: nat) | Throws

  datatype Action =
    | Tick(to: int)
    | RunEnds(run: nat, state: RunState)
    | Crash(p: nat)
    | Launch(p: nat)
    | BootRelease(p: nat)
    | Serve(p: nat)
    | PlainReceive(p: nat)
    | StrayRenew(p: nat)
    | Handle(p: nat, h: nat, act: HandlerAction)
    | Reconcile(p: nat, move: PassAction)

  function Init(ambient: bool, clock: int): System {
    System(ambient, clock, None, map[], [], {}, [], false, false, map[])
  }

  // sendUserMessage: atomic, and idempotent per nonce
  function RunFor(s: System, nonce: Nonce): nat {
    if nonce in s.thread then s.thread[nonce] else |s.runs|
  }

  function Send(s: System, nonce: Nonce): System {
    if nonce in s.thread then s
    else
      var run := |s.runs|;
      s.(thread := s.thread[nonce := run],
         runs := s.runs + [Active],
         agentRuns := if nonce.AgentNonce? then s.agentRuns + {run} else s.agentRuns)
  }

  predicate WakeSent(s: System) {
    WakeNonce in s.thread
  }

  predicate IsLinked(s: System) {
    s.row.Some? && s.row.value.runId.Some?
  }

  function Put(s: System, p: nat, process: Process): System {
    s.(processes := s.processes[p := process])
  }

  // ---------------------------------------------------------------- reconcile pass

  function After(phase: Phase, now: int): Pass {
    if phase.QueuePhase? then Busy(now, FindLinked) else Idle
  }

  predicate InQueue(pc: PassPc) {
    pc.PreWake? || pc.Abandoning? || pc.Claiming? || pc.PostWake? || pc.Latest? || pc.LastWake?
    || pc.CreateRun? || pc.FinalWake? || pc.CancelRun? || pc.Linking? || pc.Enqueueing?
  }

  predicate InDelivery(pc: PassPc) {
    pc.Composing? || pc.Silencing? || pc.Reserving? || pc.Posted? || pc.GivingUp? || pc.ReadHandle?
    || pc.Sending? || pc.Storing? || pc.Finishing?
  }

  // A rejected query: queue() and the deliveries are caught by retry(), the rest ends the pass.
  function AfterThrow(now: int, pc: PassPc): Pass {
    if InQueue(pc) then Busy(now, RetryRead(QueuePhase))
    else if InDelivery(pc) then Busy(now, RetryRead(DeliveryPhase))
    else Idle
  }

  // Where a pass goes, for the steps that touch the row by a guarded update only.
  function RowMove(s: System, now: int, pc: PassPc): Option<(Option<Row>, Pass)> {
    match pc
    case ExpiredIgnore => Some((IgnoreExpired(s.row, now).row, Busy(now, ReclaimQueueing)))
    case ExpiredRelease => Some((ReleaseRouting(s.row, now).row, Busy(now, ReclaimQueueing)))
    case ExpiredPromote => Some((PromoteExpired(s.row, now, s.ambient).row, Busy(now, ReclaimQueueing)))
    case ReclaimQueueing => Some((ExpireQueueing(s.row, now).row, Busy(now, FindObserved)))
    case Promoting(why) => Some((PromoteTrigger(s.row, why).row, Busy(now, FindReceived)))
    case IgnoringAmbient => Some((IgnoreAmbient(s.row).row, Busy(now, FindReceived)))
    case Abandoning(claimed) => Some((Abandon(s.row, claimed).row, Busy(now, FindLinked)))
    case Claiming =>
      var cas := ClaimQueue(s.row, s.clock);
      Some((cas.row, Busy(now, if cas.hit then PostWake else FindLinked)))
    case Linking(run) =>
      var cas := LinkRun(s.row, run);
      Some((cas.row, Busy(now, if cas.hit then Enqueueing else RetryRead(QueuePhase))))
    case Silencing(failed) => Some((MarkDelivered(s.row, if failed then "silent-failure" else "silent"), Idle))
    case Reserving(failed) =>
      var cas := ReserveDelivery(s.row, s.clock);
      Some((cas.row, Busy(now, if cas.hit then ReadHandle(failed) else Posted(s.clock))))
    case GivingUp(at) => Some((GiveUpDelivery(s.row, at).row, Idle))
    case Storing(handle) => Some((StoreHandle(s.row, handle), Busy(now, Finishing(handle))))
    case Finishing(handle) => Some((MarkDelivered(s.row, handle), Idle))
    case RetryFinish(phase, handle) => Some((MarkDelivered(s.row, handle), After(phase, now)))
    case _ => None
  }

  // Where a pass goes, for the steps that only read.
  function ReadMove(s: System, process: Process, now: int, pc: PassPc, pick: bool): Option<Pass> {
    match pc
    case FindExpired =>
      if pick then
        if s.row.Some? && s.row.value.status.Deferred? && Expired(s.row.value, now)
        then Some(Busy(now, ExpiredWake(s.row.value.reason))) else None
      else Some(Busy(now, ReclaimQueueing))
    case ExpiredWake(reason) => Some(Busy(now, if WakeSent(s) then ExpiredIgnore else ExpiredDecide(reason)))
    case ExpiredDecide(reason) =>
      Some(Busy(now,
        if !RoutingOwned(reason) then ExpiredPromote
        else if process.inFlight then ReclaimQueueing
        else ExpiredRelease))
    case FindObserved =>
      if pick then
        if s.row.Some? && s.row.value.status.Observed? then Some(Busy(now, Judging)) else None
      else Some(Busy(now, FindReceived))
    case FindReceived =>
      if pick then
        if s.row.Some? && s.row.value.status.Received? && Due(s.row.value, now)
        then Some(Busy(now, if RoutingOwned(s.row.value.reason) then FindLinked else PreWake)) else None
      else Some(Busy(now, FindLinked))
    case PreWake => Some(Busy(now, if WakeSent(s) then Abandoning(false) else Claiming))
    case PostWake => Some(Busy(now, if WakeSent(s) then Abandoning(true) else Latest))
    case Latest =>
      Some(Busy(now,
        if s.row.Some? && s.row.value.status.Queueing? && s.row.value.reason.Agent?
        then LastWake else Abandoning(true)))
    case LastWake => Some(Busy(now, if WakeSent(s) then Abandoning(true) else CreateRun))
    case FinalWake(run) => Some(Busy(now, if WakeSent(s) then CancelRun(run) else Linking(run)))
    case Enqueueing => Some(Busy(now, FindLinked))
    case FindLinked =>
      if pick then
        if s.row.Some? && (s.row.value.status.Running? || s.row.value.status.Delivering?) && Due(s.row.value, now)
           && s.row.value.runId.Some? && s.row.value.runId.value < |s.runs|
           && !s.runs[s.row.value.runId.value].Active?
        then Some(Busy(now, Composing(!s.runs[s.row.value.runId.value].Completed?))) else None
      else Some(Idle)
    case Posted(at) =>
      Some(Busy(now,
        if s.row.Some? && s.row.value.status.Delivering? && s.row.value.handle.Some?
        then Finishing(s.row.value.handle.value) else GivingUp(at)))
    case ReadHandle(failed) =>
      Some(Busy(now,
        if s.row.Some? && s.row.value.handle.Some? then Finishing(s.row.value.handle.value) else Sending(failed)))
    case RetryRead(phase) =>
      Some(if s.row.None? then After(phase, now)
           else if s.row.value.handle.Some? then
             if s.row.value.status.Delivered? then After(phase, now)
             else Busy(now, RetryFinish(phase, s.row.value.handle.value))
           else if s.row.value.status.Delivered? then After(phase, now)
           else Busy(now, RetryUpdate(phase, s.row.value.status)))
    case _ => None
  }

  function CallsAfter(calls: seq<Reply>, pass: Pass): seq<Reply> {
    if pass.Busy? && pass.pc.Sending? then calls + [if pass.pc.failed then FailureReply else CompletionReply] else calls
  }

  // The provider is called when the pass moves on to sending, whether it accepts the call or not.
  function Read(s: System, p: nat, pass: Pass): System
    requires p in s.processes
  {
    Put(s, p, s.processes[p].(pass := pass)).(calls := CallsAfter(s.calls, pass))
  }

  function AdvanceStep(s: System, p: nat, now: int, pc: PassPc, pick: bool): Option<System>
    requires p in s.processes
  {
    var process := s.processes[p];
    if pc.CreateRun? then
      var run := RunFor(s, AgentNonce);
      Some(Put(Send(s, AgentNonce), p, process.(pass := Busy(now, FinalWake(run)))))
    else if pc.CancelRun? then
      var runs := if pc.run < |s.runs| && s.runs[pc.run].Active? then s.runs[pc.run := Cancelled] else s.runs;
      Some(Put(s, p, process.(pass := Busy(now, Abandoning(true)))).(runs := runs))
    else
      var write := RowMove(s, now, pc);
      if write.Some? then Some(Put(s, p, process.(pass := write.value.1)).(row := write.value.0))
      else
        var read := ReadMove(s, process, now, pc, pick);
        if read.Some? then Some(Read(s, p, read.value)) else None
  }

  // Moves whose target the row does not decide.
  function FreeMove(ambient: bool, now: int, pc: PassPc, move: PassAction): Option<Pass> {
    match move
    case Throws => Some(AfterThrow(now, pc))
    case JudgeSkips => if pc.Judging? then Some(Busy(now, FindReceived)) else None
    case JudgeIgnores => if pc.Judging? then Some(Busy(now, IgnoringAmbient)) else None
    case JudgeActs(why) =>
      if pc.Judging? && (why.NoReason? || why.Judged?) then Some(Busy(now, Promoting(why))) else None
    case Compose(silent) =>
      // only an ambient message may be answered with silence, and its failures always are
      if pc.Composing? && (silent ==> ambient) && (pc.failed && ambient ==> silent)
      then Some(Busy(now, if silent then Silencing(pc.failed) else Reserving(pc.failed))) else None
    case _ => None
  }

  function PassStep(s: System, p: nat, move: PassAction): Option<System>
    requires p in s.processes
  {
    var process := s.processes[p];
    match process.pass
    case Idle =>
      // reconcileOnce() joins the pass already running
      if move.Begin? then Some(Put(s, p, process.(pass := Busy(s.clock, FindExpired)))) else None
    case Busy(now, pc) =>
      match move
      case Advance(pick) => AdvanceStep(s, p, now, pc, pick)
      case Sent(handle) =>
        if pc.Sending?
        then Some(Put(s, p, process.(pass := Busy(now, Storing(handle))))) else None
      case Retry(attempts) =>
        if pc.RetryUpdate?
        then Some(Put(s, p, process.(pass := After(pc.phase, now))).(row := RetryWrite(s.row, pc.seen, s.clock, attempts).row))
        else None
      case _ =>
        var next := FreeMove(s.ambient, now, pc, move);
        if next.None? then None
        else Some(Put(s, p, process.(pass := next.value)).(acted := s.acted || move.JudgeActs?, declined := s.declined || move.JudgeIgnores?))
  }

  // ---------------------------------------------------------------- inbound handler

  // Between receive() answering `deferred: true` and the settling of the wake it leads to.
  predicate Claimed(h: Handler) {
    h.Extending? || h.Extended? || h.Waking? || h.Stray?
  }

  predicate HasWake(h: Handler) {
    h.Waking? || h.Stray?
  }

  function WakeOf(h: Handler): Wake
    requires HasWake(h)
  {
    if h.Waking? then h.wake else h.stray
  }

  function WithWake(h: Handler, wake: Wake): Handler
    requires HasWake(h)
  {
    if h.Waking? then h.(wake := wake) else Stray(wake)
  }

  function With(process: Process, h: nat, handler: Handler): Process {
    process.(handlers := process.handlers[h := handler])
  }

  function Without(process: Process, h: nat): Process {
    process.(handlers := process.handlers - {h})
  }

  // receive(): the upsert, and the first disjunct of `deferred`
  function UpsertRow(row: Option<Row>, now: int): Option<Row> {
    if row.None? then Some(Fresh(Deferred, Some(now + DEFERRED_RESERVATION_MS))) else row
  }

  predicate UpsertTook(row: Option<Row>, now: int) {
    row.Some? && row.value.status.Deferred? && row.value.next == Some(now + DEFERRED_RESERVATION_MS)
  }

  function ReceiveStep(s: System, p: nat, h: nat, act: HandlerAction): Option<System>
    requires p in s.processes
  {
    var process := s.processes[p];
    if act.Arrive? then
      if h !in process.handlers then Some(Put(s, p, With(process, h, Arrived(s.clock)))) else None
    else if h !in process.handlers then None
    else
      var handler := process.handlers[h];
      if act.Upsert? && handler.Arrived? then
        var row := UpsertRow(s.row, handler.now);
        var next := if UpsertTook(row, handler.now) then Extending else Taking(handler.now);
        Some(Put(s, p, With(process, h, next)).(row := row))
      else if act.Take? && handler.Taking? then
        var cas := TakeDeferred(s.row, handler.now);
        Some(Put(s, p, if cas.hit then With(process, h, Extending) else Without(process, h)).(row := cas.row))
      else if act.ExtendLease? && handler.Extending? then
        var cas := Extend(s.row, s.clock);
        Some(Put(s, p, if cas.hit then With(process, h, Extended) else Without(process, h)).(row := cas.row))
      else if act.MarkInFlight? && handler.Extended? then
        Some(Put(s, p, With(process, h, Waking(Looking, Racing, Beating, s.clock)).(inFlight := true)))
      else if act.Fail? && (handler.Arrived? || handler.Taking? || handler.Extending?) then
        Some(Put(s, p, Without(process, h)))
      else None
  }

  function WakeStep(s: System, p: nat, h: nat, act: HandlerAction): Option<System>
    requires p in s.processes
  {
    var process := s.processes[p];
    if h !in process.handlers || !HasWake(process.handlers[h]) then None
    else
      var handler := process.handlers[h];
      var wake := WakeOf(handler);
      match act
      case FindRoutines(found) =>
        if wake.Looking?
        then Some(Put(s, p, With(process, h, WithWake(handler, if found then ReservingWake else Settled(NotWoken))))) else None
      case ReserveWakeRow =>
        if wake.ReservingWake? then
          var cas := ReserveWake(s.row, s.clock);
          Some(Put(s, p, With(process, h, WithWake(handler, if cas.hit then DeliveringWake else Settled(NotWoken)))).(row := cas.row))
        else None
      case DeliverWake(acknowledged) =>
        if wake.DeliveringWake?
        then Some(Put(Send(s, WakeNonce), p, With(process, h, WithWake(handler, Settled(if acknowledged then Woken else Threw))))) else None
      case WakeThrows =>
        if !wake.Settled? then Some(Put(s, p, With(process, h, WithWake(handler, Settled(Threw))))) else None
      case _ => None
  }

  // The awaiting code of handleTeamChatInbound and its heartbeat.
  function MainStep(s: System, p: nat, h: nat, act: HandlerAction): Option<System>
    requires p in s.processes
  {
    var process := s.processes[p];
    if h !in process.handlers || !process.handlers[h].Waking? then None
    else
      var handler := process.handlers[h];
      var settled := handler.wake.Settled?;
      match act
      case Renew =>
        if handler.beat.Beating? then
          var cas := Extend(s.row, s.clock);
          Some(Put(s, p, With(process, h, handler.(beat := if cas.hit then Beating else Lost))).(row := cas.row))
        else None
      case RenewThrows =>
        if handler.beat.Beating? then Some(Put(s, p, With(process, h, handler.(beat := Broken)))) else None
      case SeeWake =>
        if settled && (handler.main.Racing? || handler.main.Awaiting?) then
          var main :=
            if !handler.wake.outcome.Threw? then Resolving(handler.wake.outcome.Woken?)
            else if handler.main.Racing? then ReleasingThrew
            else ReleasingLost;
          Some(Put(s, p, With(process, h, handler.(main := main))))
        else None
      case SeeLost =>
        if handler.main.Racing? && handler.beat.Lost?
        then Some(Put(s, p, With(process, h, handler.(main := Holding)))) else None
      case SeeBroken =>
        if handler.main.Racing? && handler.beat.Broken?
        then Some(Put(s, p, With(process, h, handler.(main := ReleasingThrew)))) else None
      case Rehold(attempted) =>
        if handler.main.Holding?
        then Some(Put(s, p, With(process, h, handler.(main := Awaiting))).(row := if attempted then Extend(s.row, s.clock).row else s.row))
        else None
      case Release =>
        if handler.main.ReleasingLost? || handler.main.ReleasingThrew? || handler.main.Resolving? then
          var cas := if handler.main.Resolving? && handler.main.woken then ResolveRoutine(s.row) else ResolveAgent(s.row, s.ambient);
          Some(Put(s, p, With(process, h, handler.(main := Leaving))).(row := cas.row))
        else None
      case MainThrows =>
        if handler.main.ReleasingLost? || handler.main.ReleasingThrew? || handler.main.Resolving?
        then Some(Put(s, p, With(process, h, handler.(main := Leaving)))) else None
      case Leave =>
        // finally: the in-flight mark goes; a wake still outstanding runs on
        if handler.main.Leaving?
        then Some(Put(s, p, (if settled then Without(process, h) else With(process, h, Stray(handler.wake))).(inFlight := false))) else None
      case _ => None
  }

  predicate IsReceive(act: HandlerAction) {
    act.Arrive? || act.Upsert? || act.Take? || act.ExtendLease? || act.MarkInFlight? || act.Fail?
  }

  predicate IsWake(act: HandlerAction) {
    act.FindRoutines? || act.ReserveWakeRow? || act.DeliverWake? || act.WakeThrows?
  }

  // ---------------------------------------------------------------- the system

  function Step(s: System, a: Action): Option<System> {
    match a
    case Tick(to) => if s.clock <= to then Some(s.(clock := to)) else None
    case RunEnds(run, state) =>
      if run < |s.runs| && s.runs[run].Active? then Some(s.(runs := s.runs[run := state])) else None
    case Crash(p) => if p in s.processes then Some(s.(processes := s.processes - {p})) else None
    case Launch(p) =>
      if p !in s.processes then Some(Put(s, p, Process(false, false, Idle, map[]))) else None
    case BootRelease(p) =>
      // start(), possibly retried; inbound events are held back until it succeeds
      if p in s.processes && !s.processes[p].serving then Some(s.(row := ReleaseRouting(s.row, s.clock).row)) else None
    case Serve(p) =>
      if p in s.processes then Some(Put(s, p, s.processes[p].(serving := true))) else None
    case PlainReceive(p) =>
      if p in s.processes && s.processes[p].serving
      then Some(s.(row := if s.row.None? then Some(Fresh(Open(s.ambient), None)) else s.row)) else None
    case StrayRenew(p) =>
      if p in s.processes then Some(s.(row := Extend(s.row, s.clock).row)) else None
    case Handle(p, h, act) =>
      if p !in s.processes || !s.processes[p].serving then None
      else if IsReceive(act) then ReceiveStep(s, p, h, act)
      else if IsWake(act) then WakeStep(s, p, h, act)
      else MainStep(s, p, h, act)
    case Reconcile(p, move) =>
      if p in s.processes then PassStep(s, p, move) else None
  }

  function Exec(s: System, actions: seq<Action>): Option<System>
    decreases |actions|
  {
    if actions == [] then Some(s)
    else
      var next := Step(s, actions[0]);
      if next.None? then None else Exec(next.value, actions[1..])
  }
}
