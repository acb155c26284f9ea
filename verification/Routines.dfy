/**
 Routines and their wakeup jobs: creating, updating and removing a routine, scheduling one from
 chat and firing it each write the row and then the job queue, whose jobs are replaced by key.
 The cron calculator is a parameter that yields a time or rejects the expressions.
 */
module Routines {
  import opened Common

  // Once is "@once" up to surrounding white space.
  datatype Cron = Once(text: string) | Recurring(text: string)

  datatype Actor = Actor(space: nat, user: nat)

  datatype Routine = Routine(
    space: nat,
    user: nat,
    crons: seq<Cron>,
    timezone: string,
    active: bool,
    webhookEnabled: bool,
    githubEnabled: bool,
    messageProvider: Option<string>,
    lastRunAt: Option<int>,
    nextRunAt: Option<int>)

  // The optional fields of an update; a run time that is no date is Some(None).
  datatype Patch = Patch(
    crons: Option<seq<Cron>>,
    timezone: Option<string>,
    active: Option<bool>,
    webhookEnabled: Option<bool>,
    githubEnabled: Option<bool>,
    messageProvider: Option<Option<string>>,
    runAt: Option<Option<int>>)

  datatype Error =
    | Isolation
    | NoTrigger
    | MixedSchedule
    | OnlyFromChat
    | AlreadyRan
    | InvalidCron
    | RunTimeMissing
    | RunTimeNotAhead
    | RunTimeUnused
    | Gone

  type Calculator = (seq<Cron>, string, int) -> Option<int>

  predicate IsOneShot(crons: seq<Cron>) {
    |crons| == 1 && crons[0].Once?
  }

  predicate IsMixed(crons: seq<Cron>) {
    |crons| > 1 && exists cron :: cron in crons && cron.Once?
  }

  predicate HasTrigger(r: Routine) {
    r.crons != [] || r.webhookEnabled || r.githubEnabled || r.messageProvider.Some?
  }

  // ---------------------------------------------------------------- the rows on values

  function OrElse<T>(x: Option<T>, y: T): T {
    if x.Some? then x.value else y
  }

  // The row after an accepted update, but for its next run.
  function Merged(r: Routine, p: Patch): Routine {
    r.(crons := OrElse(p.crons, r.crons), timezone := OrElse(p.timezone, r.timezone),
       active := OrElse(p.active, r.active),
       webhookEnabled := OrElse(p.webhookEnabled, r.webhookEnabled),
       githubEnabled := OrElse(p.githubEnabled, r.githubEnabled),
       messageProvider := OrElse(p.messageProvider, r.messageProvider))
  }

  predicate Rescheduled(r: Routine, m: Routine) {
    (!r.active && m.active) || m.crons != r.crons || m.timezone != r.timezone
  }

  // A never-run one-shot being switched on, which needs a run time.
  predicate Arms(r: Routine, m: Routine) {
    m.active && IsOneShot(m.crons) && r.nextRunAt.None? && r.lastRunAt.None?
  }

  predicate Recalculates(r: Routine, m: Routine) {
    m.crons != [] && !IsOneShot(m.crons) && (Rescheduled(r, m) || (m.active && r.nextRunAt.None?))
  }

  // The next run of the merged row m, or why its times are refused.
  function TimesOf(r: Routine, m: Routine, runAt: Option<Option<int>>, now: int, next: Calculator): Result<Option<int>, Error> {
    if Recalculates(r, m) && next(m.crons, m.timezone, now).None? then Err(InvalidCron)
    else if Arms(r, m) && runAt.None? then Err(RunTimeMissing)
    else if Arms(r, m) && (runAt.value.None? || runAt.value.value <= now) then Err(RunTimeNotAhead)
    else if !Arms(r, m) && runAt.Some? then Err(RunTimeUnused)
    else if !m.active || m.crons == [] then Ok(None)
    else if Arms(r, m) then Ok(runAt.value)
    else if Recalculates(r, m) then Ok(next(m.crons, m.timezone, now))
    else Ok(r.nextRunAt)
  }

  function Updated(r: Routine, p: Patch, now: int, next: Calculator): Result<Routine, Error> {
    var m := Merged(r, p);
    var times := TimesOf(r, m, p.runAt, now, next);
    if !HasTrigger(m) then Err(NoTrigger)
    else if IsMixed(m.crons) then Err(MixedSchedule)
    else if m.active && IsOneShot(m.crons) && !IsOneShot(r.crons) then Err(OnlyFromChat)
    else if m.active && IsOneShot(m.crons) && r.nextRunAt.None? && r.lastRunAt.Some? then Err(AlreadyRan)
    else if times.Err? then Err(times.error)
    else Ok(m.(nextRunAt := times.value))
  }

  function Created(actor: Actor, draft: Routine, now: int, next: Calculator): Result<Routine, Error> {
    if !HasTrigger(draft) then Err(NoTrigger)
    else if IsMixed(draft.crons) then Err(MixedSchedule)
    else if draft.active && IsOneShot(draft.crons) then Err(OnlyFromChat)
    else
      var calculates := draft.crons != [] && !IsOneShot(draft.crons);
      var time := if calculates then next(draft.crons, draft.timezone, now) else None;
      if calculates && time.None? then Err(InvalidCron)
      else Ok(draft.(space := actor.space, user := actor.user, lastRunAt := None,
                     nextRunAt := if draft.active then time else None))
  }

  // ---------------------------------------------------------------- rows and queue together

  // Basis: the schedule a recurring routine's next run was computed from.
  datatype Basis = Basis(crons: seq<Cron>, timezone: string)

  datatype Desk = Desk(routines: map<nat, Routine>, jobs: map<nat, int>, basis: map<nat, Basis>)

  datatype Op =
    | Create(id: nat, actor: Actor, draft: Routine)
    | Update(id: nat, actor: Actor, patch: Patch)
    | Remove(id: nat, actor: Actor)
    | Schedule(id: nat, actor: Actor, cron: Cron, timezone: string, at: int)
    | Fire(id: nat, accepted: bool)

  function Enqueued(jobs: map<nat, int>, id: nat, time: Option<int>): map<nat, int> {
    if time.Some? then jobs[id := time.value] else jobs - {id}
  }

  function CreateOn(d: Desk, op: Op, now: int, next: Calculator): (Desk, Option<Error>)
    requires op.Create?
  {
    var created := Created(op.actor, op.draft, now, next);
    if created.Err? then (d, Some(created.error))
    else
      var r := created.value;
      (Desk(d.routines[op.id := r],
            if r.nextRunAt.Some? then d.jobs[op.id := r.nextRunAt.value] else d.jobs,
            d.basis[op.id := Basis(r.crons, r.timezone)]), None)
  }

  // The later step of an update, from the row `seen` that its earlier step has read: the fields
  // given are written onto the row as it is by now, the next run as planned from `seen`.
  function WriteOn(d: Desk, id: nat, p: Patch, seen: Routine, now: int, next: Calculator): (Desk, Option<Error>) {
    var planned := Updated(seen, p, now, next);
    if planned.Err? then (d, Some(planned.error))
    else if id !in d.routines then (d, Some(Gone))
    else
      var m := planned.value;
      var row := Merged(d.routines[id], p).(nextRunAt := m.nextRunAt);
      var sync := seen.active != row.active || Rescheduled(seen, m) || (seen.nextRunAt.None? && row.nextRunAt.Some?);
      (Desk(d.routines[id := row],
            if sync then Enqueued(d.jobs, id, if row.active then row.nextRunAt else None) else d.jobs,
            if Recalculates(seen, m) then d.basis[id := Basis(m.crons, m.timezone)] else d.basis), None)
  }

  predicate Owns(actor: Actor, d: Desk, id: nat) {
    id in d.routines && d.routines[id].space == actor.space && d.routines[id].user == actor.user
  }

  /** What firing does: the run is dated, a one-shot ends, a recurring routine is set for its next time or ends without one. */
  lemma {:induction false} FiredMeans(d: Desk, id: nat, now: int, next: Calculator)
    requires FiresAt(d, id, now)
    ensures
      var r, after := d.routines[id], FireOn(d, id, now, next, true);
      var later := next(r.crons, r.timezone, if now > d.jobs[id] then now else d.jobs[id]);
      && after.routines == d.routines[id := after.routines[id]]
      && after.routines[id] == r.(lastRunAt := Some(now), nextRunAt := after.routines[id].nextRunAt, active := after.routines[id].active)
      && (if (|r.crons| == 1 && r.crons[0].Once?) || later.None?
          then !after.routines[id].active && after.routines[id].nextRunAt == None && after.jobs == d.jobs - {id}
          else after.routines[id].active && after.routines[id].nextRunAt == later && after.jobs == d.jobs[id := later.value])
  {
  }

  /** Creating accepts exactly a triggered, unmixed draft that is no active one-shot and whose schedule can be computed. */
  lemma {:induction false} CreatedMeans(d: Desk, id: nat, actor: Actor, draft: Routine, now: int, next: Calculator)
    ensures
      var (after, error) := CreateOn(d, Create(id, actor, draft), now, next);
      var oneShot := |draft.crons| == 1 && draft.crons[0].Once?;
      && (error.None? <==>
            && (draft.crons != [] || draft.webhookEnabled || draft.githubEnabled || draft.messageProvider.Some?)
            && !(|draft.crons| > 1 && exists cron :: cron in draft.crons && cron.Once?)
            && !(draft.active && oneShot)
            && (draft.crons != [] && !oneShot ==> next(draft.crons, draft.timezone, now).Some?))
      && (error.Some? ==> after == d)
      && (error.None? ==>
            && after.routines == d.routines[id := after.routines[id]]
            && after.routines[id] == draft.(space := actor.space, user := actor.user, lastRunAt := None, nextRunAt := after.routines[id].nextRunAt)
            && (if draft.active && draft.crons != []
                then after.routines[id].nextRunAt == next(draft.crons, draft.timezone, now)
                     && after.jobs == d.jobs[id := after.routines[id].nextRunAt.value]
                else after.routines[id].nextRunAt == None && after.jobs == d.jobs))
  {
  }

  /** Scheduling from chat makes one active routine for a future one-shot time or a computable cron. */
  lemma {:induction false} ScheduledMeans(d: Desk, id: nat, actor: Actor, cron: Cron, timezone: string, at: int, now: int, next: Calculator)
    ensures
      var (after, error) := ScheduleOn(d, Schedule(id, actor, cron, timezone, at), now, next);
      var time := if cron.Once? then Some(at) else next([cron], timezone, now);
      && (error.None? <==> if cron.Once? then now < at else time.Some?)
      && (error.Some? ==> after == d)
      && (error.None? ==>
            && after.jobs == d.jobs[id := time.value]
            && after.routines == d.routines[id := Routine(actor.space, actor.user, [cron], timezone, true, false, false, None, None, time)])
  {
  }

  /** Only a routine of the actor's space is removed, with its wakeup. */
  lemma {:induction false} RemovedMeans(d: Desk, id: nat, actor: Actor)
    ensures
      var (after, error) := RemoveOn(d, Remove(id, actor));
      && (error.None? <==> id in d.routines && d.routines[id].space == actor.space)
      && (if error.None? then after.routines == d.routines - {id} && after.jobs == d.jobs - {id} else after == d)
  {
  }

  // Both steps with nothing in between.
  function UpdateOn(d: Desk, op: Op, now: int, next: Calculator): (Desk, Option<Error>)
    requires op.Update?
  {
    if !Owns(op.actor, d, op.id) then (d, Some(Isolation))
    else WriteOn(d, op.id, op.patch, d.routines[op.id], now, next)
  }

  function RemoveOn(d: Desk, op: Op): (Desk, Option<Error>)
    requires op.Remove?
  {
    if op.id !in d.routines || d.routines[op.id].space != op.actor.space then (d, Some(Isolation))
    else (Desk(d.routines - {op.id}, d.jobs - {op.id}, d.basis - {op.id}), None)
  }

  // addSchedule: one cron, active at once; `at` is the run time of a one-shot.
  function ScheduleOn(d: Desk, op: Op, now: int, next: Calculator): (Desk, Option<Error>)
    requires op.Schedule?
  {
    var time := if op.cron.Once? then (if op.at <= now then None else Some(op.at)) else next([op.cron], op.timezone, now);
    if time.None? then (d, Some(if op.cron.Once? then RunTimeNotAhead else InvalidCron))
    else
      (Desk(d.routines[op.id := Routine(op.actor.space, op.actor.user, [op.cron], op.timezone, true, false, false, None, None, time)],
            d.jobs[op.id := time.value],
            d.basis[op.id := Basis([op.cron], op.timezone)]), None)
  }

  // The queued job of the routine is due and its row still says so.
  predicate FiresAt(d: Desk, id: nat, now: int) {
    && id in d.jobs && d.jobs[id] <= now + 1000
    && id in d.routines && d.routines[id].active && d.routines[id].nextRunAt == Some(d.jobs[id])
  }

  // The row once a due wakeup has claimed it.
  function Fired(r: Routine, time: int, now: int, next: Calculator): Routine {
    var later := if IsOneShot(r.crons) then None else next(r.crons, r.timezone, if now > time then now else time);
    r.(lastRunAt := Some(now), nextRunAt := later, active := later.Some?)
  }

  // wakeRoutine on the queued job, which leaves the queue when it succeeds; `accepted` is whether
  // the run's continuation could be queued, without which claim and job are restored.
  function FireOn(d: Desk, id: nat, now: int, next: Calculator, accepted: bool): Desk {
    if id !in d.jobs then d
    else
      var time, rest := d.jobs[id], d.jobs - {id};
      if id !in d.routines || !d.routines[id].active || d.routines[id].nextRunAt != Some(time) then d.(jobs := rest)
      else if time > now + 1000 then d.(jobs := rest[id := time])
      else if !accepted then d
      else
        var fired := Fired(d.routines[id], time, now, next);
        Desk(d.routines[id := fired], Enqueued(rest, id, fired.nextRunAt), d.basis[id := Basis(fired.crons, fired.timezone)])
  }

  // The ids of new rows are new.
  predicate Fresh(d: Desk, op: Op) {
    op.Create? || op.Schedule? ==> op.id !in d.routines
  }

  function Apply(d: Desk, op: Op, now: int, next: Calculator): Desk {
    match op
    case Create(_, _, _) => CreateOn(d, op, now, next).0
    case Update(_, _, _) => UpdateOn(d, op, now, next).0
    case Remove(_, _) => RemoveOn(d, op).0
    case Schedule(_, _, _, _, _) => ScheduleOn(d, op, now, next).0
    case Fire(id, accepted) => FireOn(d, id, now, next, accepted)
  }

  // ---------------------------------------------------------------- agreement

  predicate RowAgrees(r: Routine) {
    && (r.nextRunAt.Some? <==> r.active && r.crons != [])
    && !IsMixed(r.crons)
    && HasTrigger(r)
    && (r.active && IsOneShot(r.crons) ==> r.lastRunAt.None?)
  }

  predicate JobAgrees(d: Desk, id: nat) {
    if id in d.routines && d.routines[id].nextRunAt.Some?
    then id in d.jobs && d.jobs[id] == d.routines[id].nextRunAt.value
    else id !in d.jobs
  }

  predicate BasisAgrees(d: Desk, id: nat) {
    id in d.routines && d.routines[id].nextRunAt.Some? && !IsOneShot(d.routines[id].crons) ==>
      id in d.basis && d.basis[id] == Basis(d.routines[id].crons, d.routines[id].timezone)
  }

  ghost predicate Agrees(d: Desk, id: nat) {
    && (id in d.routines ==> RowAgrees(d.routines[id]))
    && JobAgrees(d, id)
    && BasisAgrees(d, id)
  }

  /**
   A routine has a next run exactly when it is active with a schedule, its wakeup is queued
   exactly then and for that time, and a recurring one's time comes from its present schedule.
   A one-shot that has run is not active.
   */
  ghost predicate Consistent(d: Desk) {
    forall id :: Agrees(d, id)
  }

  lemma {:induction false} UpdatedAgrees(r: Routine, p: Patch, now: int, next: Calculator)
    requires RowAgrees(r) && Updated(r, p, now, next).Ok?
    ensures RowAgrees(Updated(r, p, now, next).value)
  {
  }

  /**
   An accepted update writes the fields given and keeps the others. The next run is cleared, armed
   with the future time given, recalculated for the schedule as it will be, or kept as it was.
   */
  predicate Accepted(r: Routine, p: Patch, row: Routine, now: int, next: Calculator) {
    && (forall error :: !Refused(r, p, error, now, next))
    && row == Merged(r, p).(nextRunAt := row.nextRunAt)
    && (!row.active || row.crons == [] ==> row.nextRunAt.None?)
    && (row.active && IsOneShot(row.crons) && r.nextRunAt.None? && r.lastRunAt.None? ==>
          row.nextRunAt.Some? && p.runAt == Some(row.nextRunAt) && now < row.nextRunAt.value)
    && (row.active && IsOneShot(row.crons) && r.nextRunAt.Some? ==> row.nextRunAt == r.nextRunAt)
    && (row.active && row.crons != [] && !IsOneShot(row.crons) ==>
          && (Rescheduled(r, row) || r.nextRunAt.None? ==> row.nextRunAt.Some? && row.nextRunAt == next(row.crons, row.timezone, now))
          && (!Rescheduled(r, row) && r.nextRunAt.Some? ==> row.nextRunAt == r.nextRunAt))
  }

  // The guard each refusal stands for.
  predicate Refused(r: Routine, p: Patch, error: Error, now: int, next: Calculator) {
    var m := Merged(r, p);
    match error
    case NoTrigger => m.crons == [] && !m.webhookEnabled && !m.githubEnabled && m.messageProvider.None?
    case MixedSchedule => IsMixed(m.crons)
    case OnlyFromChat => m.active && IsOneShot(m.crons) && !IsOneShot(r.crons)
    case AlreadyRan => m.active && IsOneShot(m.crons) && r.nextRunAt.None? && r.lastRunAt.Some?
    case InvalidCron => Recalculates(r, m) && next(m.crons, m.timezone, now).None?
    case RunTimeMissing => Arms(r, m) && p.runAt.None?
    case RunTimeNotAhead => Arms(r, m) && p.runAt.Some? && (p.runAt.value.None? || p.runAt.value.value <= now)
    case RunTimeUnused => !Arms(r, m) && p.runAt.Some?
    case Isolation => false
    case Gone => false
  }

  /** An update is accepted exactly when no guard refuses it, and then means what Accepted says. */
  lemma {:induction false} UpdatedMeans(r: Routine, p: Patch, now: int, next: Calculator)
    ensures
      var updated := Updated(r, p, now, next);
      && (updated.Ok? ==> Accepted(r, p, updated.value, now, next))
      && (updated.Err? ==> Refused(r, p, updated.error, now, next))
      && (updated.Ok? <==> forall error :: !Refused(r, p, error, now, next))
      && (updated.Ok? && RowAgrees(r) ==> RowAgrees(updated.value))
  {
    if Updated(r, p, now, next).Ok? {
      forall error
        ensures !Refused(r, p, error, now, next)
      {
      }
    } else {
      assert Refused(r, p, Updated(r, p, now, next).error, now, next);
    }
  }

  lemma {:induction false} UpdateKeeps(d: Desk, op: Op, now: int, next: Calculator)
    requires op.Update? && Consistent(d)
    ensures Consistent(UpdateOn(d, op, now, next).0)
  {
    var d' := UpdateOn(d, op, now, next).0;
    forall id
      ensures Agrees(d', id)
    {
      assert Agrees(d, id);
      if id == op.id && id in d.routines && Updated(d.routines[id], op.patch, now, next).Ok? {
        UpdatedAgrees(d.routines[id], op.patch, now, next);
      }
    }
  }

  lemma {:induction false} CreateKeeps(d: Desk, op: Op, now: int, next: Calculator)
    requires (op.Create? || op.Schedule?) && Fresh(d, op) && Consistent(d)
    ensures Consistent(Apply(d, op, now, next))
  {
    var d' := Apply(d, op, now, next);
    forall id
      ensures Agrees(d', id)
    {
      assert Agrees(d, id);
    }
  }

  lemma {:induction false} RemoveKeeps(d: Desk, op: Op)
    requires op.Remove? && Consistent(d)
    ensures Consistent(RemoveOn(d, op).0)
  {
    forall id
      ensures Agrees(RemoveOn(d, op).0, id)
    {
      assert Agrees(d, id);
    }
  }

  lemma {:induction false} FireKeeps(d: Desk, id: nat, now: int, next: Calculator, accepted: bool)
    requires Consistent(d)
    ensures Consistent(FireOn(d, id, now, next, accepted))
  {
    forall other
      ensures Agrees(FireOn(d, id, now, next, accepted), other)
    {
      assert Agrees(d, other);
    }
  }

  lemma {:induction false} ApplyKeeps(d: Desk, op: Op, now: int, next: Calculator)
    requires Consistent(d) && Fresh(d, op)
    ensures Consistent(Apply(d, op, now, next))
  {
    match op
    case Create(_, _, _) => CreateKeeps(d, op, now, next);
    case Update(_, _, _) => UpdateKeeps(d, op, now, next);
    case Remove(_, _) => RemoveKeeps(d, op);
    case Schedule(_, _, _, _, _) => CreateKeeps(d, op, now, next);
    case Fire(id, accepted) => FireKeeps(d, id, now, next, accepted);
  }

  // None when a step would reuse the id of a row.
  function Run(d: Desk, steps: seq<(Op, int)>, next: Calculator): Option<Desk>
    decreases |steps|
  {
    if steps == [] then Some(d)
    else if !Fresh(d, steps[0].0) then None
    else Run(Apply(d, steps[0].0, steps[0].1, next), steps[1..], next)
  }

  /** Every sequence of operations keeps rows and queue in agreement. */
  lemma {:induction false} RunKeeps(d: Desk, steps: seq<(Op, int)>, next: Calculator)
    requires Consistent(d) && Run(d, steps, next).Some?
    ensures Consistent(Run(d, steps, next).value)
    decreases |steps|
  {
    if steps != [] {
      ApplyKeeps(d, steps[0].0, steps[0].1, next);
      RunKeeps(Apply(d, steps[0].0, steps[0].1, next), steps[1..], next);
    }
  }

  // ---------------------------------------------------------------- updates that overlap other operations

  // The updates that have read a row and not written yet, by handler.
  datatype Office = Office(desk: Desk, open: map<nat, (nat, Routine)>)

  datatype Step = Whole(op: Op) | Find(handler: nat, id: nat, actor: Actor) | Write(handler: nat, patch: Patch)

  function Advance(o: Office, step: Step, now: int, next: Calculator): Office {
    match step
    case Whole(op) => o.(desk := Apply(o.desk, op, now, next))
    case Find(handler, id, actor) =>
      if Owns(actor, o.desk, id) then o.(open := o.open[handler := (id, o.desk.routines[id])]) else o
    case Write(handler, patch) =>
      if handler !in o.open then o
      else Office(WriteOn(o.desk, o.open[handler].0, patch, o.open[handler].1, now, next).0, o.open - {handler})
  }

  // A write finds its row as its handler read it, or gone.
  predicate Undisturbed(o: Office, step: Step) {
    && (step.Whole? ==> Fresh(o.desk, step.op))
    && (step.Write? && step.handler in o.open ==>
          var (id, seen) := o.open[step.handler];
          id in o.desk.routines ==> o.desk.routines[id] == seen)
  }

  predicate UndisturbedRun(o: Office, steps: seq<(Step, int)>, next: Calculator)
    decreases |steps|
  {
    steps == [] || (Undisturbed(o, steps[0].0) && UndisturbedRun(Advance(o, steps[0].0, steps[0].1, next), steps[1..], next))
  }

  function AdvanceAll(o: Office, steps: seq<(Step, int)>, next: Calculator): Office
    decreases |steps|
  {
    if steps == [] then o else AdvanceAll(Advance(o, steps[0].0, steps[0].1, next), steps[1..], next)
  }

  lemma {:induction false} WriteKeeps(d: Desk, id: nat, p: Patch, seen: Routine, now: int, next: Calculator)
    requires Consistent(d) && (id in d.routines ==> d.routines[id] == seen)
    ensures Consistent(WriteOn(d, id, p, seen, now, next).0)
  {
    if id in d.routines {
      UpdateKeeps(d, Update(id, Actor(seen.space, seen.user), p), now, next);
    }
  }

  /** Updates that overlap other operations keep the agreement as long as nobody writes the row in between. */
  lemma {:induction false} OverlapKeeps(o: Office, steps: seq<(Step, int)>, next: Calculator)
    requires Consistent(o.desk) && UndisturbedRun(o, steps, next)
    ensures Consistent(AdvanceAll(o, steps, next).desk)
    decreases |steps|
  {
    if steps != [] {
      var (step, now) := steps[0];
      if step.Whole? {
        ApplyKeeps(o.desk, step.op, now, next);
      } else if step.Write? && step.handler in o.open {
        WriteKeeps(o.desk, o.open[step.handler].0, step.patch, o.open[step.handler].1, now, next);
      }
      OverlapKeeps(Advance(o, step, now, next), steps[1..], next);
    }
  }

  // The calculator looks ahead.
  ghost predicate Ahead(next: Calculator) {
    forall crons, timezone, from: int :: next(crons, timezone, from).Some? ==> from < next(crons, timezone, from).value
  }

  // The update switches the routine off or takes its schedule away, or gives an active one a new recurring schedule.
  predicate Overrides(seen: Routine, fired: Routine, p: Patch) {
    var m := Merged(seen, p);
    !m.active || m.crons == [] || (!IsOneShot(m.crons) && Rescheduled(seen, m) && OrElse(p.active, fired.active))
  }

  /**
   A wakeup that fires between an update's read and its write: afterwards rows and queue agree
   exactly when the update overrides the schedule it read.
   */
  lemma {:induction false} FireBetween(d: Desk, id: nat, p: Patch, firedAt: int, now: int, next: Calculator)
    requires Consistent(d) && FiresAt(d, id, firedAt) && Ahead(next) && Updated(d.routines[id], p, now, next).Ok?
    ensures
      var fired := FireOn(d, id, firedAt, next, true);
      Consistent(WriteOn(fired, id, p, d.routines[id], now, next).0)
      <==> Overrides(d.routines[id], fired.routines[id], p)
  {
    var seen, fired := d.routines[id], FireOn(d, id, firedAt, next, true);
    var after := WriteOn(fired, id, p, seen, now, next).0;
    FireKeeps(d, id, firedAt, next, true);
    assert Agrees(d, id) && Agrees(fired, id);
    FireBetweenRow(d, id, p, firedAt, now, next);
    if Overrides(seen, fired.routines[id], p) {
      forall other
        ensures Agrees(after, other)
      {
        assert Agrees(fired, other);
      }
    } else {
      assert !Agrees(after, id);
    }
  }

  lemma {:induction false} FireBetweenRow(d: Desk, id: nat, p: Patch, firedAt: int, now: int, next: Calculator)
    requires Agrees(d, id) && FiresAt(d, id, firedAt) && Ahead(next) && Updated(d.routines[id], p, now, next).Ok?
    ensures
      var fired := FireOn(d, id, firedAt, next, true);
      Agrees(WriteOn(fired, id, p, d.routines[id], now, next).0, id)
      <==> Overrides(d.routines[id], fired.routines[id], p)
  {
    UpdatedMeans(d.routines[id], p, now, next);
  }

  /** Renaming a routine while it fires: the row is left at the old time, the queue holds the next one. */
  lemma {:induction false} RenamedWhileFiring(next: Calculator)
    requires forall from: int :: next([Recurring("* * * * *")], "UTC", from) == Some(from + 60_000)
    ensures
      var row := Routine(1, 1, [Recurring("* * * * *")], "UTC", true, false, false, None, None, Some(60_000));
      var d := Desk(map[7 := row], map[7 := 60_000], map[7 := Basis(row.crons, row.timezone)]);
      var after := WriteOn(FireOn(d, 7, 60_000, next, true), 7, Patch(None, None, None, None, None, None, None), row, 60_000, next).0;
      Consistent(d) && after.routines[7].nextRunAt == Some(60_000) && after.jobs[7] == 120_000
  {
    var row := Routine(1, 1, [Recurring("* * * * *")], "UTC", true, false, false, None, None, Some(60_000));
    var d := Desk(map[7 := row], map[7 := 60_000], map[7 := Basis(row.crons, row.timezone)]);
    assert Consistent(d);
  }

  predicate HasRun(d: Desk, id: nat) {
    id in d.routines && d.routines[id].lastRunAt.Some?
  }

  lemma {:induction false} ApplyStaysRun(d: Desk, op: Op, now: int, next: Calculator, id: nat)
    requires HasRun(d, id) && Fresh(d, op) && !(op.Remove? && op.id == id)
    ensures HasRun(Apply(d, op, now, next), id)
  {
  }

  /** A routine that has fired once is never again waiting as a one-shot, whatever is edited later. */
  lemma {:induction false} OneShotFiresOnce(d: Desk, steps: seq<(Op, int)>, next: Calculator, id: nat)
    requires Consistent(d) && HasRun(d, id) && Run(d, steps, next).Some?
    requires forall step :: step in steps && step.0.Remove? ==> step.0.id != id
    ensures
      var d' := Run(d, steps, next).value;
      HasRun(d', id) && (IsOneShot(d'.routines[id].crons) ==> !d'.routines[id].active && id !in d'.jobs)
    decreases |steps|
  {
    if steps == [] {
      assert Agrees(d, id);
    } else {
      var op, now := steps[0].0, steps[0].1;
      assert steps[0] in steps;
      ApplyKeeps(d, op, now, next);
      ApplyStaysRun(d, op, now, next, id);
      OneShotFiresOnce(Apply(d, op, now, next), steps[1..], next, id);
    }
  }

  // ---------------------------------------------------------------- the handlers in place

  // The later half of the validation: the times of a row whose fields are already merged.
  method PlanNextRun(existing: Routine, row: Routine, runAt: Option<Option<int>>, now: int, next: Calculator)
    returns (plan: Result<Option<int>, Error>)
    ensures plan == TimesOf(existing, row, runAt, now, next)
  {
    var scheduleChanged :=
      (!existing.active && row.active) || row.crons != existing.crons || row.timezone != existing.timezone;
    var recalculated: Option<int> := None;
    if |row.crons| > 0 && !IsOneShot(row.crons) && (scheduleChanged || (row.active && existing.nextRunAt.None?)) {
      recalculated := next(row.crons, row.timezone, now);
      if recalculated.None? {
        return Err(InvalidCron);
      }
    }
    var armedAt: Option<int> := None;
    if row.active && IsOneShot(row.crons) && existing.nextRunAt.None? && existing.lastRunAt.None? {
      if runAt.None? {
        return Err(RunTimeMissing);
      }
      armedAt := runAt.value;
      if armedAt.None? || armedAt.value <= now {
        return Err(RunTimeNotAhead);
      }
    } else if runAt.Some? {
      return Err(RunTimeUnused);
    }
    if !row.active || |row.crons| == 0 {
      return Ok(None);
    }
    if IsOneShot(row.crons) {
      return Ok(if armedAt.Some? then armedAt else existing.nextRunAt);
    }
    return Ok(if recalculated.Some? then recalculated else existing.nextRunAt);
  }

  /** The validating half of the update handler: the row it would write. */
  method PlanUpdate(existing: Routine, p: Patch, now: int, next: Calculator) returns (plan: Result<Routine, Error>)
    ensures plan == Updated(existing, p, now, next)
    ensures plan.Ok? ==> Accepted(existing, p, plan.value, now, next)
    ensures plan.Err? ==> Refused(existing, p, plan.error, now, next)
    ensures RowAgrees(existing) && plan.Ok? ==> RowAgrees(plan.value)
  {
    UpdatedMeans(existing, p, now, next);
    var active := OrElse(p.active, existing.active);
    var crons := OrElse(p.crons, existing.crons);
    var timezone := OrElse(p.timezone, existing.timezone);
    var webhookEnabled := OrElse(p.webhookEnabled, existing.webhookEnabled);
    var githubEnabled := OrElse(p.githubEnabled, existing.githubEnabled);
    var messageProvider := OrElse(p.messageProvider, existing.messageProvider);
    if |crons| == 0 && !webhookEnabled && !githubEnabled && messageProvider.None? {
      return Err(NoTrigger);
    }
    if IsMixed(crons) {
      return Err(MixedSchedule);
    }
    if active && IsOneShot(crons) {
      if !IsOneShot(existing.crons) {
        return Err(OnlyFromChat);
      }
      if existing.nextRunAt.None? && existing.lastRunAt.Some? {
        return Err(AlreadyRan);
      }
    }
    var row := Routine(existing.space, existing.user, crons, timezone, active, webhookEnabled, githubEnabled,
                       messageProvider, existing.lastRunAt, existing.nextRunAt);
    var times := PlanNextRun(existing, row, p.runAt, now, next);
    if times.Err? {
      return Err(times.error);
    }
    return Ok(row.(nextRunAt := times.value));
  }

  class RoutineTable {
    var routines: map<nat, Routine>
    var jobs: map<nat, int>
    ghost var basis: map<nat, Basis>

    ghost function State(): Desk
      reads this
    {
      Desk(routines, jobs, basis)
    }

    constructor ()
      ensures Consistent(State()) && routines == map[]
    {
      routines, jobs, basis := map[], map[], map[];
    }

    method EnqueueWakeup(id: nat, at: int)
      modifies this`jobs
      ensures jobs == old(jobs)[id := at]
    {
      jobs := jobs[id := at];
    }

    method CancelWakeup(id: nat)
      modifies this`jobs
      ensures jobs == old(jobs) - {id}
    {
      jobs := jobs - {id};
    }

    method Create(id: nat, actor: Actor, draft: Routine, now: int, next: Calculator) returns (error: Option<Error>)
      requires Consistent(State()) && id !in routines
      modifies this
      ensures (State(), error) == CreateOn(old(State()), Op.Create(id, actor, draft), now, next)
      ensures Consistent(State())
    {
      CreateKeeps(State(), Op.Create(id, actor, draft), now, next);
      if !HasTrigger(draft) {
        return Some(NoTrigger);
      }
      if IsMixed(draft.crons) {
        return Some(MixedSchedule);
      }
      if draft.active && IsOneShot(draft.crons) {
        return Some(OnlyFromChat);
      }
      var nextRunAt: Option<int> := None;
      if |draft.crons| > 0 && !IsOneShot(draft.crons) {
        var computed := next(draft.crons, draft.timezone, now);
        if computed.None? {
          return Some(InvalidCron);
        }
        if draft.active {
          nextRunAt := computed;
        }
      }
      var row := draft.(space := actor.space, user := actor.user, lastRunAt := None, nextRunAt := nextRunAt);
      routines := routines[id := row];
      basis := basis[id := Basis(row.crons, row.timezone)];
      if row.active && row.nextRunAt.Some? {
        EnqueueWakeup(id, row.nextRunAt.value);
      }
      return None;
    }

    method Update(id: nat, actor: Actor, p: Patch, now: int, next: Calculator) returns (error: Option<Error>)
      requires Consistent(State())
      modifies this
      ensures (State(), error) == UpdateOn(old(State()), Op.Update(id, actor, p), now, next)
      ensures Consistent(State())
    {
      UpdateKeeps(State(), Op.Update(id, actor, p), now, next);
      var existing := Find(id, actor);
      if existing.None? {
        return Some(Isolation);
      }
      error := Write(id, p, existing.value, now, next);
    }

    method Find(id: nat, actor: Actor) returns (existing: Option<Routine>)
      ensures existing == if Owns(actor, State(), id) then Some(routines[id]) else None
    {
      if id !in routines || routines[id].space != actor.space || routines[id].user != actor.user {
        return None;
      }
      return Some(routines[id]);
    }

    // From the row read to the queue; the table may have changed since the row was read.
    method Write(id: nat, p: Patch, existing: Routine, now: int, next: Calculator) returns (error: Option<Error>)
      modifies this
      ensures (State(), error) == WriteOn(old(State()), id, p, existing, now, next)
    {
      var plan := PlanUpdate(existing, p, now, next);
      if plan.Err? {
        return Some(plan.error);
      }
      if id !in routines {
        return Some(Gone);
      }
      var planned := plan.value;
      var row := Merged(routines[id], p).(nextRunAt := planned.nextRunAt);
      routines := routines[id := row];
      if Recalculates(existing, planned) {
        basis := basis[id := Basis(planned.crons, planned.timezone)];
      }
      var scheduleNeedsSync :=
        existing.active != row.active || Rescheduled(existing, planned) || (existing.nextRunAt.None? && row.nextRunAt.Some?);
      if scheduleNeedsSync {
        if row.active && row.nextRunAt.Some? {
          EnqueueWakeup(id, row.nextRunAt.value);
        } else {
          CancelWakeup(id);
        }
      }
      return None;
    }

    method Remove(id: nat, actor: Actor) returns (error: Option<Error>)
      requires Consistent(State())
      modifies this
      ensures (State(), error) == RemoveOn(old(State()), Op.Remove(id, actor))
      ensures Consistent(State())
    {
      RemoveKeeps(State(), Op.Remove(id, actor));
      if id !in routines || routines[id].space != actor.space {
        return Some(Isolation);
      }
      routines := routines - {id};
      basis := basis - {id};
      CancelWakeup(id);
      return None;
    }

    // addSchedule, when its enqueue is accepted.
    method Schedule(id: nat, actor: Actor, cron: Cron, timezone: string, at: int, now: int, next: Calculator) returns (error: Option<Error>)
      requires Consistent(State()) && id !in routines
      modifies this
      ensures (State(), error) == ScheduleOn(old(State()), Op.Schedule(id, actor, cron, timezone, at), now, next)
      ensures Consistent(State())
    {
      CreateKeeps(State(), Op.Schedule(id, actor, cron, timezone, at), now, next);
      var nextRunAt: Option<int>;
      if cron.Once? {
        if at <= now {
          return Some(RunTimeNotAhead);
        }
        nextRunAt := Some(at);
      } else {
        nextRunAt := next([cron], timezone, now);
        if nextRunAt.None? {
          return Some(InvalidCron);
        }
      }
      routines := routines[id := Routine(actor.space, actor.user, [cron], timezone, true, false, false, None, None, nextRunAt)];
      basis := basis[id := Basis([cron], timezone)];
      EnqueueWakeup(id, nextRunAt.value);
      return None;
    }

    /** wakeRoutine, on a job taken from the queue. */
    method Wake(id: nat, now: int, next: Calculator, accepted: bool)
      requires Consistent(State()) && id in jobs
      modifies this
      ensures State() == FireOn(old(State()), id, now, next, accepted)
      ensures Consistent(State())
    {
      FireKeeps(State(), id, now, next, accepted);
      var scheduledAt := jobs[id];
      CancelWakeup(id);
      if id !in routines || !routines[id].active || routines[id].nextRunAt != Some(scheduledAt) {
        return;
      }
      if scheduledAt > now + 1000 {
        EnqueueWakeup(id, scheduledAt);
        return;
      }
      var routine := routines[id];
      var nextRunAt: Option<int> := None;
      if !IsOneShot(routine.crons) {
        nextRunAt := next(routine.crons, routine.timezone, if now > scheduledAt then now else scheduledAt);
      }
      routines := routines[id := routine.(lastRunAt := Some(now), nextRunAt := nextRunAt, active := nextRunAt.Some?)];
      if !accepted {
        // the claim is given back and the failed job stays in the queue
        routines := routines[id := routines[id].(nextRunAt := Some(scheduledAt), active := true, lastRunAt := routine.lastRunAt)];
        EnqueueWakeup(id, scheduledAt);
        assert routines[id] == routine && routines == old(routines) && jobs == old(jobs);
        return;
      }
      basis := basis[id := Basis(routine.crons, routine.timezone)];
      if IsOneShot(routine.crons) {
        CancelWakeup(id);
      } else if nextRunAt.Some? {
        EnqueueWakeup(id, nextRunAt.value);
      }
    }
  }
}
