/**
 The start/stop scheduler of the desktop's local stack. The promises `start()` and `stop()`
 return are operations in a table; each waits for the promises its call captured, then runs a
 body (`compose up` or `compose stop`), then its `finally`. The docker runner never rejects.
 */
module LocalStack {
  import opened Common

  // Returned: the `then` callback has its value, the `finally` callback has not run.
  datatype Phase = Waiting | Body | Returned | Settled

  datatype Kind = Up(ticket: nat) | Down

  datatype Op = Op(kind: Kind, afterStop: Option<nat>, afterStart: Option<nat>, phase: Phase, ran: bool)

  datatype Intent = Started | Stopped

  datatype Stack = Stack(
    ops: seq<Op>,
    running: Option<nat>,
    stopping: Option<nat>,
    inFlight: Option<nat>,
    aborted: set<nat>,
    ticket: nat,
    voidBefore: nat,
    bodies: seq<Intent>,
    last: Option<Intent>)

  datatype Event = CallStart | CallStop | Fire(op: nat) | Return(op: nat) | Finally(op: nat)

  const EMPTY := Stack([], None, None, None, {}, 0, 0, [], None)

  function IntentOf(kind: Kind): Intent {
    if kind.Up? then Started else Stopped
  }

  predicate IsSettled(s: Stack, op: Option<nat>) {
    op.Some? && op.value < |s.ops| ==> s.ops[op.value].phase.Settled?
  }

  function StartCall(s: Stack): (Stack, nat) {
    if s.running.Some? then (s.(last := Some(Started)), s.running.value)
    else
      var op := Op(Up(s.ticket + 1), s.stopping, None, Waiting, false);
      (s.(ticket := s.ticket + 1, ops := s.ops + [op], running := Some(|s.ops|), last := Some(Started)), |s.ops|)
  }

  function AbortRun(s: Stack): set<nat> {
    if s.inFlight.Some? then s.aborted + {s.inFlight.value} else s.aborted
  }

  function StopCall(s: Stack): (Stack, nat) {
    if s.stopping.Some? && s.running.None?
    then (s.(voidBefore := s.ticket, last := Some(Stopped)), s.stopping.value)
    else
      var op := Op(Down, s.stopping, s.running, Waiting, false);
      (s.(voidBefore := s.ticket, aborted := AbortRun(s), running := None, ops := s.ops + [op],
          stopping := Some(|s.ops|), last := Some(Stopped)), |s.ops|)
  }

  predicate CanFire(s: Stack, i: nat) {
    i < |s.ops| && s.ops[i].phase.Waiting? && IsSettled(s, s.ops[i].afterStop) && IsSettled(s, s.ops[i].afterStart)
  }

  predicate Voided(s: Stack, op: Op) {
    op.kind.Up? && op.kind.ticket <= s.voidBefore
  }

  function FireOp(s: Stack, i: nat): Stack
    requires CanFire(s, i)
  {
    var op := s.ops[i];
    if Voided(s, op) then s.(ops := s.ops[i := op.(phase := Returned)])
    else s.(ops := s.ops[i := op.(phase := Body, ran := true)],
            bodies := s.bodies + [IntentOf(op.kind)],
            inFlight := if op.kind.Up? then Some(i) else s.inFlight)
  }

  function ReturnOp(s: Stack, i: nat): Stack
    requires i < |s.ops|
  {
    s.(ops := s.ops[i := s.ops[i].(phase := Returned)],
       inFlight := if s.inFlight == Some(i) then None else s.inFlight)
  }

  function FinallyOp(s: Stack, i: nat): Stack
    requires i < |s.ops|
  {
    s.(ops := s.ops[i := s.ops[i].(phase := Settled)],
       running := if s.running == Some(i) then None else s.running,
       stopping := if s.stopping == Some(i) then None else s.stopping)
  }

  function Next(s: Stack, event: Event): Option<Stack> {
    match event
    case CallStart => Some(StartCall(s).0)
    case CallStop => Some(StopCall(s).0)
    case Fire(i) => if CanFire(s, i) then Some(FireOp(s, i)) else None
    case Return(i) => if i < |s.ops| && s.ops[i].phase.Body? then Some(ReturnOp(s, i)) else None
    case Finally(i) => if i < |s.ops| && s.ops[i].phase.Returned? then Some(FinallyOp(s, i)) else None
  }

  function Play(s: Stack, events: seq<Event>): Option<Stack>
    decreases |events|
  {
    if events == [] then Some(s)
    else
      var next := Next(s, events[0]);
      if next.None? then None else Play(next.value, events[1..])
  }

  /** The controller, updating its fields in place; the promise table stands for the event loop. */
  class LocalStackController {
    var ops: seq<Op>
    var running: Option<nat>
    var stopping: Option<nat>
    var inFlight: Option<nat>
    var aborted: set<nat>
    var ticket: nat
    var voidBefore: nat
    ghost var bodies: seq<Intent>
    ghost var last: Option<Intent>

    ghost function State(): Stack
      reads this
    {
      Stack(ops, running, stopping, inFlight, aborted, ticket, voidBefore, bodies, last)
    }

    constructor ()
      ensures State() == EMPTY && Valid(State())
    {
      ops, running, stopping, inFlight, aborted := [], None, None, None, {};
      ticket, voidBefore, bodies, last := 0, 0, [], None;
    }

    method Start() returns (attempt: nat)
      requires Valid(State())
      modifies this
      ensures State() == StartCall(old(State())).0 && attempt == StartCall(old(State())).1
      ensures Valid(State())
    {
      StartValid(State());
      last := Some(Started);
      if running.Some? {
        return running.value;
      }
      ticket := ticket + 1;
      attempt := |ops|;
      ops := ops + [Op(Up(ticket), stopping, None, Waiting, false)];
      running := Some(attempt);
    }

    method Abort()
      modifies this`aborted
      ensures aborted == AbortRun(old(State()))
    {
      if inFlight.Some? {
        aborted := aborted + {inFlight.value};
      }
    }

    method Stop() returns (stop: nat)
      requires Valid(State())
      modifies this
      ensures State() == StopCall(old(State())).0 && stop == StopCall(old(State())).1
      ensures Valid(State())
    {
      StopValid(State());
      last := Some(Stopped);
      voidBefore := ticket;
      if stopping.Some? && running.None? {
        return stopping.value;
      }
      Abort();
      stop := |ops|;
      ops := ops + [Op(Down, stopping, running, Waiting, false)];
      running := None;
      stopping := Some(stop);
    }

    // The `then` callback of an operation whose promises have settled.
    method Run(i: nat)
      requires Valid(State()) && CanFire(State(), i)
      modifies this
      ensures State() == FireOp(old(State()), i) && Valid(State())
    {
      FireValid(State(), i);
      var op := ops[i];
      if op.kind.Up? && op.kind.ticket <= voidBefore {
        ops := ops[i := op.(phase := Returned)];
      } else {
        ops := ops[i := op.(phase := Body, ran := true)];
        bodies := bodies + [IntentOf(op.kind)];
        if op.kind.Up? {
          inFlight := Some(i);
        }
      }
    }

    // The body of an operation ends.
    method Complete(i: nat)
      requires Valid(State()) && i < |ops| && ops[i].phase.Body?
      modifies this
      ensures State() == ReturnOp(old(State()), i) && Valid(State())
    {
      ReturnValid(State(), i);
      ops := ops[i := ops[i].(phase := Returned)];
      if inFlight == Some(i) {
        inFlight := None;
      }
    }

    // The `finally` callback: only the current promise of its kind is forgotten.
    method Settle(i: nat)
      requires Valid(State()) && i < |ops| && ops[i].phase.Returned?
      modifies this
      ensures State() == FinallyOp(old(State()), i) && Valid(State())
    {
      FinallyValid(State(), i);
      ops := ops[i := ops[i].(phase := Settled)];
      if running == Some(i) {
        running := None;
      }
      if stopping == Some(i) {
        stopping := None;
      }
    }
  }

  // ---------------------------------------------------------------- invariant

  predicate UpTo(j: nat, bound: Option<nat>) {
    bound.Some? && j <= bound.value
  }

  // Every operation still pending when i was made is no newer than one i waits for.
  ghost predicate Chained(s: Stack, i: nat)
    requires i < |s.ops|
  {
    forall j :: 0 <= j < i && !s.ops[j].phase.Settled? ==> UpTo(j, s.ops[i].afterStop) || UpTo(j, s.ops[i].afterStart)
  }

  ghost predicate OpValid(s: Stack, i: nat)
    requires i < |s.ops|
  {
    var op := s.ops[i];
    && (op.afterStop.Some? ==> op.afterStop.value < i)
    && (op.afterStart.Some? ==> op.afterStart.value < i)
    && Chained(s, i)
    && (!op.phase.Waiting? ==> forall j :: 0 <= j < i ==> s.ops[j].phase.Settled?)
    && (op.kind.Up? ==> op.kind.ticket <= s.ticket)
    && (op.phase.Body? ==> op.ran)
    && (op.ran ==> !op.phase.Waiting?)
    && (!op.phase.Waiting? && !Voided(s, op) ==> op.ran)
  }

  ghost predicate Pointers(s: Stack) {
    && (s.running.Some? ==>
          && s.running.value == |s.ops| - 1
          && s.ops[s.running.value].kind.Up?
          && !Voided(s, s.ops[s.running.value])
          && !s.ops[s.running.value].phase.Settled?)
    && (s.stopping.Some? ==>
          && s.stopping.value < |s.ops|
          && s.ops[s.stopping.value].kind.Down?
          && !s.ops[s.stopping.value].phase.Settled?)
    && (forall j :: 0 <= j < |s.ops| && !s.ops[j].phase.Settled? ==> UpTo(j, s.running) || UpTo(j, s.stopping))
    && (forall j :: 0 <= j < |s.ops| && !s.ops[j].phase.Settled? && s.ops[j].kind.Up? && !Voided(s, s.ops[j]) ==> s.running == Some(j))
  }

  ghost predicate Latest(s: Stack) {
    && (s.last.None? <==> s.ops == [])
    && (s.last.Some? ==>
          var op := s.ops[|s.ops| - 1];
          && IntentOf(op.kind) == s.last.value
          && !Voided(s, op)
          && (op.ran ==> s.bodies != [] && s.bodies[|s.bodies| - 1] == IntentOf(op.kind)))
  }

  // The abort controller belongs to the run in its body; a stop made after it has aborted it, and
  // nothing else was aborted.
  ghost predicate Flight(s: Stack) {
    && (s.inFlight.Some? ==> s.inFlight.value < |s.ops| && s.ops[s.inFlight.value].kind.Up?)
    && (forall i :: i in s.aborted ==> i < |s.ops| && Voided(s, s.ops[i]))
    && (forall i :: 0 <= i < |s.ops| && s.ops[i].kind.Up? && s.ops[i].phase.Body? ==> s.inFlight == Some(i))
    && (forall i :: 0 <= i < |s.ops| && s.ops[i].kind.Up? && s.ops[i].phase.Body? && Voided(s, s.ops[i]) ==> i in s.aborted)
  }

  ghost predicate Valid(s: Stack) {
    && s.voidBefore <= s.ticket
    && (forall i :: 0 <= i < |s.ops| ==> OpValid(s, i))
    && Pointers(s)
    && Latest(s)
    && Flight(s)
  }

  // Older operations keep their part of the invariant when voidBefore grows and ops are appended.
  lemma {:induction false} OlderValid(s: Stack, t: Stack)
    requires Valid(s) && s.ops <= t.ops && s.ticket <= t.ticket && s.voidBefore <= t.voidBefore
    ensures forall k :: 0 <= k < |s.ops| ==> OpValid(t, k)
  {
    forall k | 0 <= k < |s.ops|
      ensures OpValid(t, k)
    {
      assert OpValid(s, k) && t.ops[k] == s.ops[k];
      forall j | 0 <= j < k && !t.ops[j].phase.Settled?
        ensures UpTo(j, t.ops[k].afterStop) || UpTo(j, t.ops[k].afterStart)
      {
        assert s.ops[j] == t.ops[j];
      }
    }
  }

  lemma {:induction false} StartValid(s: Stack)
    requires Valid(s)
    ensures Valid(StartCall(s).0)
  {
    OlderValid(s, StartCall(s).0);
  }

  // The newest operation is settled only if all are, so a stop still pending with no start is the newest.
  lemma {:induction false} PendingStopIsNewest(s: Stack)
    requires Valid(s) && s.stopping.Some? && s.running.None?
    ensures s.stopping.value == |s.ops| - 1
  {
    var n := |s.ops| - 1;
    assert OpValid(s, n);
  }

  lemma {:induction false} StopValid(s: Stack)
    requires Valid(s)
    ensures Valid(StopCall(s).0)
  {
    OlderValid(s, StopCall(s).0);
    var t := StopCall(s).0;
    if s.stopping.Some? && s.running.None? {
      PendingStopIsNewest(s);
    }
    forall j | 0 <= j < |t.ops| && t.ops[j].kind.Up?
      ensures Voided(t, t.ops[j])
    {
      assert j < |s.ops| && OpValid(s, j);
    }
  }

  // Firing settles nothing and needs everything older settled.
  lemma {:induction false} FireNeedsOlder(s: Stack, i: nat)
    requires Valid(s) && CanFire(s, i)
    ensures forall j :: 0 <= j < i ==> s.ops[j].phase.Settled?
    ensures forall k :: i < k < |s.ops| ==> s.ops[k].phase.Waiting?
  {
    var op := s.ops[i];
    assert OpValid(s, i);
    assert op.afterStop.Some? ==> OpValid(s, op.afterStop.value);
    assert op.afterStart.Some? ==> OpValid(s, op.afterStart.value);
    forall k | i < k < |s.ops|
      ensures s.ops[k].phase.Waiting?
    {
      assert OpValid(s, k);
    }
  }

  // A phase change of operation i that settles no other.
  lemma {:induction false} PhaseValid(s: Stack, t: Stack, i: nat)
    requires Valid(s) && i < |s.ops| && |t.ops| == |s.ops|
    requires t.ops == s.ops[i := s.ops[i].(phase := t.ops[i].phase, ran := t.ops[i].ran)]
    requires t.ticket == s.ticket && t.voidBefore == s.voidBefore && !t.ops[i].phase.Waiting?
    requires s.ops[i].phase.Settled? ==> t.ops[i].phase.Settled?
    requires t.ops[i].phase.Body? ==> t.ops[i].ran
    requires !Voided(t, t.ops[i]) ==> t.ops[i].ran
    requires forall j :: 0 <= j < i ==> s.ops[j].phase.Settled?
    ensures forall k :: 0 <= k < |t.ops| ==> OpValid(t, k)
  {
    forall k | 0 <= k < |t.ops|
      ensures OpValid(t, k)
    {
      assert OpValid(s, k);
    }
  }

  lemma {:induction false} FireValid(s: Stack, i: nat)
    requires Valid(s) && CanFire(s, i)
    ensures Valid(FireOp(s, i))
  {
    assert OpValid(s, i);
    assert OpValid(s, |s.ops| - 1);
    FireNeedsOlder(s, i);
    PhaseValid(s, FireOp(s, i), i);
  }

  lemma {:induction false} ReturnValid(s: Stack, i: nat)
    requires Valid(s) && i < |s.ops| && s.ops[i].phase.Body?
    ensures Valid(ReturnOp(s, i))
  {
    assert OpValid(s, i);
    PhaseValid(s, ReturnOp(s, i), i);
  }

  lemma {:induction false} FinallyValid(s: Stack, i: nat)
    requires Valid(s) && i < |s.ops| && s.ops[i].phase.Returned?
    ensures Valid(FinallyOp(s, i))
  {
    assert OpValid(s, i);
    PhaseValid(s, FinallyOp(s, i), i);
  }

  // ---------------------------------------------------------------- over whole runs

  lemma {:induction false} NextValid(s: Stack, event: Event)
    requires Valid(s) && Next(s, event).Some?
    ensures Valid(Next(s, event).value)
  {
    match event
    case CallStart => StartValid(s);
    case CallStop => StopValid(s);
    case Fire(i) => FireValid(s, i);
    case Return(i) => ReturnValid(s, i);
    case Finally(i) => FinallyValid(s, i);
  }

  lemma {:induction false} PlayValid(s: Stack, events: seq<Event>)
    requires Valid(s) && Play(s, events).Some?
    ensures Valid(Play(s, events).value)
    decreases |events|
  {
    if events != [] {
      NextValid(s, events[0]);
      PlayValid(Next(s, events[0]).value, events[1..]);
    }
  }

  /** At most one `compose up` or `compose stop` body executes at a time. */
  lemma {:induction false} BodiesNeverOverlap(events: seq<Event>, i: nat, j: nat)
    requires Play(EMPTY, events).Some? && i < j < |Play(EMPTY, events).value.ops|
    ensures
      var s := Play(EMPTY, events).value;
      !(s.ops[i].phase.Body? && s.ops[j].phase.Body?)
  {
    PlayValid(EMPTY, events);
    assert OpValid(Play(EMPTY, events).value, j);
  }

  // j is i or one of the operations i waits for, directly or not.
  predicate InClosure(s: Stack, i: nat, j: nat)
    decreases i
  {
    i < |s.ops| &&
    (i == j
     || (s.ops[i].afterStop.Some? && s.ops[i].afterStop.value < i && InClosure(s, s.ops[i].afterStop.value, j))
     || (s.ops[i].afterStart.Some? && s.ops[i].afterStart.value < i && InClosure(s, s.ops[i].afterStart.value, j)))
  }

  lemma {:induction false} PendingInClosure(s: Stack, i: nat, j: nat)
    requires Valid(s) && j <= i < |s.ops| && !s.ops[j].phase.Settled?
    ensures InClosure(s, i, j)
    decreases i
  {
    if j < i {
      assert OpValid(s, i);
      if UpTo(j, s.ops[i].afterStop) {
        PendingInClosure(s, s.ops[i].afterStop.value, j);
      } else {
        PendingInClosure(s, s.ops[i].afterStart.value, j);
      }
    }
  }

  /** Every unsettled operation is in the dependency closure of `running` or `stopping`. */
  lemma {:induction false} PendingIsTracked(events: seq<Event>, j: nat)
    requires Play(EMPTY, events).Some? && j < |Play(EMPTY, events).value.ops|
    requires !Play(EMPTY, events).value.ops[j].phase.Settled?
    ensures
      var s := Play(EMPTY, events).value;
      || (s.running.Some? && InClosure(s, s.running.value, j))
      || (s.stopping.Some? && InClosure(s, s.stopping.value, j))
  {
    var s := Play(EMPTY, events).value;
    PlayValid(EMPTY, events);
    if UpTo(j, s.running) {
      PendingInClosure(s, s.running.value, j);
    } else {
      PendingInClosure(s, s.stopping.value, j);
    }
  }

  ghost predicate Dead(s: Stack, i: nat) {
    i < |s.ops| && Voided(s, s.ops[i]) && !s.ops[i].ran
  }

  lemma {:induction false} NextKeepsDead(s: Stack, event: Event, i: nat)
    requires Valid(s) && Dead(s, i) && Next(s, event).Some?
    ensures Dead(Next(s, event).value, i)
  {
  }

  lemma {:induction false} DeadForever(s: Stack, events: seq<Event>, i: nat)
    requires Valid(s) && Dead(s, i) && Play(s, events).Some?
    ensures Dead(Play(s, events).value, i)
    decreases |events|
  {
    if events != [] {
      NextValid(s, events[0]);
      NextKeepsDead(s, events[0], i);
      DeadForever(Next(s, events[0]).value, events[1..], i);
    }
  }

  /** A start whose body had not begun when stop() was called never begins it. */
  lemma {:induction false} SupersededStartsNeverRun(before: seq<Event>, after: seq<Event>, i: nat)
    requires Play(EMPTY, before).Some?
    requires
      var s := Play(EMPTY, before).value;
      && i < |s.ops| && s.ops[i].kind.Up? && !s.ops[i].ran
      && Play(StopCall(s).0, after).Some?
    ensures
      var t := Play(StopCall(Play(EMPTY, before).value).0, after).value;
      i < |t.ops| && !t.ops[i].ran
  {
    var s := Play(EMPTY, before).value;
    PlayValid(EMPTY, before);
    assert OpValid(s, i);
    StopValid(s);
    DeadForever(StopCall(s).0, after, i);
  }

  /** The start handed to later callers is never one that a stop superseded, and it is the newest operation. */
  lemma {:induction false} RunningIsCurrent(events: seq<Event>)
    requires Play(EMPTY, events).Some? && Play(EMPTY, events).value.running.Some?
    ensures
      var s := Play(EMPTY, events).value;
      && s.running.value == |s.ops| - 1
      && s.ops[s.running.value].kind.Up?
      && s.voidBefore < s.ops[s.running.value].kind.ticket
  {
    PlayValid(EMPTY, events);
  }

  /** A run in its body has had its docker command killed exactly if a stop superseded it, and nothing else is ever killed. */
  lemma {:induction false} AbortedExactly(events: seq<Event>, i: nat)
    requires Play(EMPTY, events).Some?
    ensures
      var s := Play(EMPTY, events).value;
      && (i in s.aborted ==> i < |s.ops| && s.ops[i].kind.Up? && s.ops[i].kind.ticket <= s.voidBefore)
      && (i < |s.ops| && s.ops[i].kind.Up? && s.ops[i].phase.Body? ==> (i in s.aborted <==> s.ops[i].kind.ticket <= s.voidBefore))
  {
    PlayValid(EMPTY, events);
  }

  /**
   Once every operation has settled, the last body executed is the one the last call asked for: it
   is that of the newest operation, and if it was a start, its command was left running.
   */
  lemma {:induction false} LatestIntentWins(events: seq<Event>)
    requires Play(EMPTY, events).Some?
    requires
      var s := Play(EMPTY, events).value;
      s.last.Some? && forall i :: 0 <= i < |s.ops| ==> s.ops[i].phase.Settled?
    ensures
      var s := Play(EMPTY, events).value;
      && s.bodies != [] && s.bodies[|s.bodies| - 1] == s.last.value
      && s.ops != [] && s.ops[|s.ops| - 1].ran && |s.ops| - 1 !in s.aborted
      && (s.ops[|s.ops| - 1].kind.Up? <==> s.last.value.Started?)
  {
    var s := Play(EMPTY, events).value;
    PlayValid(EMPTY, events);
    assert OpValid(s, |s.ops| - 1);
  }

  /** A call hands out the newest operation of its kind, not superseded and not settled, and joins one only without making another. */
  lemma {:induction false} CallsReturnCurrent(events: seq<Event>)
    requires Play(EMPTY, events).Some?
    ensures
      var s := Play(EMPTY, events).value;
      var (started, attempt) := StartCall(s);
      var (stopped, stop) := StopCall(s);
      && attempt == |started.ops| - 1 && started.ops[attempt].kind.Up? && !started.ops[attempt].phase.Settled?
      && started.voidBefore < started.ops[attempt].kind.ticket && |started.ops| <= |s.ops| + 1
      && stop == |stopped.ops| - 1 && stopped.ops[stop].kind.Down? && !stopped.ops[stop].phase.Settled?
      && stopped.running.None? && |stopped.ops| <= |s.ops| + 1
  {
    var s := Play(EMPTY, events).value;
    PlayValid(EMPTY, events);
    if s.stopping.Some? && s.running.None? {
      PendingStopIsNewest(s);
    }
  }

  lemma {:induction false} OldestPending(s: Stack, j: nat) returns (i: nat)
    requires j < |s.ops| && !s.ops[j].phase.Settled?
    ensures i <= j && !s.ops[i].phase.Settled? && forall k :: 0 <= k < i ==> s.ops[k].phase.Settled?
  {
    if k :| 0 <= k < j && !s.ops[k].phase.Settled? {
      i := OldestPending(s, k);
    } else {
      i := j;
    }
  }

  /** No deadlock: while an operation is pending, the oldest one can begin, end or settle. */
  lemma {:induction false} NeverStuck(events: seq<Event>, j: nat) returns (event: Event)
    requires Play(EMPTY, events).Some? && j < |Play(EMPTY, events).value.ops|
    requires !Play(EMPTY, events).value.ops[j].phase.Settled?
    ensures !event.CallStart? && !event.CallStop? && Next(Play(EMPTY, events).value, event).Some?
  {
    var s := Play(EMPTY, events).value;
    PlayValid(EMPTY, events);
    var i := OldestPending(s, j);
    assert OpValid(s, i);
    event := if s.ops[i].phase.Waiting? then Fire(i) else if s.ops[i].phase.Body? then Return(i) else Finally(i);
  }
}
