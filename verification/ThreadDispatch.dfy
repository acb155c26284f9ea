/**
 How a user message meets the runs already active in its thread. The direct branch looks at
 one bot's runs as a whole; the group branch sorts all runs into maps in one loop and then
 walks the target bots. Both are shown to make the same choice for every bot.
 */
module ThreadDispatch {
  import opened Common

  datatype RunStatus = Queued | Leased | Running | WaitingInput | WaitingTakeover | Completed | Failed | Cancelled

  datatype Trigger = User | Reaction | Messaging | BotMessage | Routine | Webhook | Created

  datatype Run = Run(id: nat, task: nat, bot: nat, status: RunStatus, trigger: Trigger)

  // Steer's target is null when the chosen run is not conversational.
  datatype Choice = Answer(runs: seq<Run>) | Steer(run: Run, target: Option<nat>) | Create

  datatype Error = Conflict

  predicate Active(run: Run) {
    run.status.Queued? || run.status.Leased? || run.status.Running? || run.status.WaitingInput? || run.status.WaitingTakeover?
  }

  predicate Steerable(run: Run) {
    run.status.Queued? || run.status.Leased? || run.status.Running? || run.status.WaitingTakeover?
  }

  predicate Conversational(run: Run) {
    !run.trigger.Routine? && !run.trigger.Webhook? && !run.trigger.Created?
  }

  predicate Steers(run: Run) {
    Steerable(run) && Conversational(run)
  }

  // findMany over one bot's active runs
  function ActiveOf(runs: seq<Run>, bot: nat): seq<Run> {
    Filter(runs, (run: Run) => run.bot == bot && Active(run))
  }

  // findMany over the target bots' active runs
  function ActiveOfAny(runs: seq<Run>, bots: seq<nat>): seq<Run> {
    Filter(runs, (run: Run) => run.bot in bots && Active(run))
  }

  function Waiting(runs: seq<Run>): seq<Run> {
    Filter(runs, (run: Run) => run.status.WaitingInput?)
  }

  // Answered runs come back queued.
  function Requeued(runs: seq<Run>): seq<Run> {
    seq(|runs|, i requires 0 <= i < |runs| => runs[i].(status := Queued))
  }

  function FirstSteering(runs: seq<Run>): Option<Run> {
    if runs == [] then None
    else if Steers(runs[0]) then Some(runs[0])
    else FirstSteering(runs[1..])
  }

  predicate AnySteers(runs: seq<Run>) {
    exists run :: run in runs && Steers(run)
  }

  // The direct branch over one bot's active runs; `answerable` is answerWaitingRunWithTextInTransaction.
  function Direct(runs: seq<Run>, voice: bool, text: bool, answerable: nat -> bool): Result<Choice, Error> {
    if runs != [] && voice then Err(Conflict)
    else if Waiting(runs) != [] && !AnySteers(runs) then
      if text && forall run :: run in Waiting(runs) ==> answerable(run.id) then Ok(Answer(Requeued(Waiting(runs)))) else Err(Conflict)
    else if exists run :: run in runs && !run.status.WaitingInput? && !Steerable(run) then Err(Conflict)
    else match FirstSteering(runs)
      case Some(run) => Ok(Steer(run, Some(run.id)))
      case None => if runs == [] then Ok(Create) else Ok(Steer(runs[0], None))
  }

  lemma {:induction false} FirstSteeringIs(runs: seq<Run>)
    ensures FirstSteering(runs).None? <==> !AnySteers(runs)
    ensures FirstSteering(runs).Some? ==> FirstSteering(runs).value in runs && Steers(FirstSteering(runs).value)
  {
    if runs != [] {
      FirstSteeringIs(runs[1..]);
      assert runs == [runs[0]] + runs[1..];
    }
  }

  lemma {:induction false} FirstSteeringAppend(runs: seq<Run>, run: Run)
    ensures FirstSteering(runs + [run]) ==
            if FirstSteering(runs).Some? then FirstSteering(runs) else if Steers(run) then Some(run) else None
  {
    if runs != [] {
      assert (runs + [run])[1..] == runs[1..] + [run];
      FirstSteeringAppend(runs[1..], run);
    } else {
      assert (runs + [run])[1..] == [];
    }
  }

  // ---------------------------------------------------------------- what a choice means

  // The bot's runs that may take a user message into their own turn.
  predicate TakesMessage(run: Run, bot: nat) {
    && run.bot == bot
    && (run.status == Queued || run.status == Leased || run.status == RunStatus.Running || run.status == WaitingTakeover)
    && run.trigger != Routine && run.trigger != Webhook && run.trigger != Created
  }

  predicate AsksUser(run: Run, bot: nat) {
    run.bot == bot && run.status == WaitingInput
  }

  predicate InFlight(run: Run, bot: nat) {
    run.bot == bot
    && (run.status == Queued || run.status == Leased || run.status == RunStatus.Running
        || run.status == WaitingInput || run.status == WaitingTakeover)
  }

  // The first run of the list, in its order, that satisfies the predicate.
  ghost predicate IsFirst(all: seq<Run>, run: Run, suits: Run -> bool) {
    exists i :: 0 <= i < |all| && all[i] == run && suits(run) && forall j :: 0 <= j < i ==> !suits(all[j])
  }

  /**
   A message to a bot: it steers the bot's first conversational run in its turn, if there is one;
   otherwise it answers all waiting runs, or conflicts if it cannot; otherwise it waits behind the
   first run in flight, without a target; and it starts a run only if none is in flight.
   */
  ghost predicate Serves(all: seq<Run>, bot: nat, text: bool, answerable: nat -> bool, r: Result<Choice, Error>) {
    var steerable := exists run :: run in all && TakesMessage(run, bot);
    var asked := Filter(all, (run: Run) => AsksUser(run, bot));
    var answers := text && forall run :: run in asked ==> answerable(run.id);
    var inFlight := exists run :: run in all && InFlight(run, bot);
    match r
    case Err(_) => !steerable && asked != [] && !answers
    case Ok(Answer(runs)) =>
      && !steerable && asked != [] && answers
      && |runs| == |asked| && forall k :: 0 <= k < |runs| ==> runs[k] == asked[k].(status := Queued)
    case Ok(Steer(run, Some(target))) => steerable && target == run.id && IsFirst(all, run, (x: Run) => TakesMessage(x, bot))
    case Ok(Steer(run, None)) => !steerable && asked == [] && IsFirst(all, run, (x: Run) => InFlight(x, bot))
    case Ok(Create) => !inFlight
  }

  /** The five outcomes exclude each other, so each is taken exactly under its condition. */
  lemma {:induction false} ServedExactly(all: seq<Run>, bot: nat, text: bool, answerable: nat -> bool, r: Result<Choice, Error>)
    requires Serves(all, bot, text, answerable, r)
    ensures (exists target :: r.Ok? && r.value.Steer? && r.value.target == Some(target)) <==> exists run :: run in all && TakesMessage(run, bot)
    ensures r == Ok(Create) <==> forall run :: run in all ==> !InFlight(run, bot)
    ensures r.Ok? && r.value.Steer? && r.value.target == None <==>
            && (exists run :: run in all && InFlight(run, bot))
            && forall run :: run in all ==> !TakesMessage(run, bot) && !AsksUser(run, bot)
  {
    var asked := Filter(all, (run: Run) => AsksUser(run, bot));
    forall run | run in all || run in asked
      ensures run in asked <==> run in all && AsksUser(run, bot)
    {
      FilterIn(all, (x: Run) => AsksUser(x, bot), run);
    }
    if asked != [] {
      assert asked[0] in asked;
    }
    if r.Ok? && r.value.Steer? {
      assert r.value.run in all;
      if r.value.target.Some? {
        assert r.value.target == Some(r.value.target.value);
      }
    }
  }

  lemma {:induction false} FilterFirst(all: seq<Run>, suits: Run -> bool)
    ensures Filter(all, suits) == [] ==> forall run :: run in all ==> !suits(run)
    ensures Filter(all, suits) != [] ==> IsFirst(all, Filter(all, suits)[0], suits)
  {
    if all != [] {
      var front, last := all[..|all| - 1], all[|all| - 1];
      FilterFirst(front, suits);
      if Filter(front, suits) != [] {
        var i :| 0 <= i < |front| && front[i] == Filter(front, suits)[0] && forall j :: 0 <= j < i ==> !suits(front[j]);
        assert all[i] == front[i] && forall j :: 0 <= j < i ==> all[j] == front[j];
      } else if suits(last) {
        assert Filter(all, suits) == [last];
        assert all[|all| - 1] == last && forall j :: 0 <= j < |all| - 1 ==> all[j] in front;
      } else {
        assert forall run :: run in all ==> run in front || run == last;
      }
    }
  }

  // The first run in its turn among the active ones is the first of all.
  lemma {:induction false} FirstSteeringOfAll(all: seq<Run>, bot: nat)
    ensures
      var suits := (x: Run) => TakesMessage(x, bot);
      FirstSteering(ActiveOf(all, bot)) == if Filter(all, suits) == [] then None else Some(Filter(all, suits)[0])
  {
    var suits := (x: Run) => TakesMessage(x, bot);
    if all != [] {
      var front, last := all[..|all| - 1], all[|all| - 1];
      FirstSteeringOfAll(front, bot);
      if last.bot == bot && Active(last) {
        FirstSteeringAppend(ActiveOf(front, bot), last);
      }
    }
  }

  lemma {:induction false} ActiveIsInFlight(all: seq<Run>, bot: nat)
    ensures ActiveOf(all, bot) == Filter(all, (x: Run) => InFlight(x, bot))
  {
    FilterSame(all, (run: Run) => run.bot == bot && Active(run), (x: Run) => InFlight(x, bot));
  }

  lemma {:induction false} WaitingIsAsked(all: seq<Run>, bot: nat)
    ensures Waiting(ActiveOf(all, bot)) == Filter(all, (x: Run) => AsksUser(x, bot))
  {
    var active, waits := (run: Run) => run.bot == bot && Active(run), (run: Run) => run.status.WaitingInput?;
    FilterTwice(all, active, waits);
    FilterSame(all, Both(active, waits), (x: Run) => AsksUser(x, bot));
  }

  lemma {:induction false} DirectServes(all: seq<Run>, bot: nat, text: bool, answerable: nat -> bool)
    ensures Serves(all, bot, text, answerable, Direct(ActiveOf(all, bot), false, text, answerable))
  {
    var active, suits := ActiveOf(all, bot), (x: Run) => TakesMessage(x, bot);
    FirstSteeringIs(active);
    FirstSteeringOfAll(all, bot);
    FilterFirst(all, suits);
    WaitingIsAsked(all, bot);
    ActiveIsInFlight(all, bot);
    FilterFirst(all, (x: Run) => InFlight(x, bot));
    ActiveRuns(all, bot);
    if Filter(all, suits) != [] {
      assert Filter(all, suits)[0] in all && TakesMessage(Filter(all, suits)[0], bot);
    }
  }

  lemma {:induction false} VoiceServes(all: seq<Run>, bot: nat, text: bool, answerable: nat -> bool)
    ensures Direct(ActiveOf(all, bot), true, text, answerable)
            == if exists run :: run in all && InFlight(run, bot) then Err(Conflict) else Ok(Create)
  {
    ActiveIsInFlight(all, bot);
    FilterFirst(all, (x: Run) => InFlight(x, bot));
    if run :| run in all && InFlight(run, bot) {
      FilterIn(all, (x: Run) => InFlight(x, bot), run);
    }
  }

  lemma {:induction false} ActiveRuns(all: seq<Run>, bot: nat)
    ensures forall run :: run in ActiveOf(all, bot) ==> Active(run)
  {
    forall run | run in ActiveOf(all, bot)
      ensures Active(run)
    {
      FilterIn(all, (x: Run) => x.bot == bot && Active(x), run);
    }
  }

  /** The direct branch as the source runs it: answer the waiting runs one by one, else find the run to steer. */
  method DispatchDirect(all: seq<Run>, bot: nat, voice: bool, text: bool, answerable: nat -> bool) returns (r: Result<Choice, Error>)
    ensures r == Direct(ActiveOf(all, bot), voice, text, answerable)
    ensures !voice ==> Serves(all, bot, text, answerable, r)
    ensures voice ==> r == if exists run :: run in all && InFlight(run, bot) then Err(Conflict) else Ok(Create)
  {
    DirectServes(all, bot, text, answerable);
    VoiceServes(all, bot, text, answerable);
    var active := ActiveOf(all, bot);
    if active != [] && voice {
      return Err(Conflict);
    }
    var waiting := Waiting(active);
    var steering := FirstSteering(active);
    FirstSteeringIs(active);
    if waiting != [] && steering.None? {
      if !text {
        return Err(Conflict);
      }
      var i := 0;
      while i < |waiting|
        invariant 0 <= i <= |waiting|
        invariant forall k :: 0 <= k < i ==> answerable(waiting[k].id)
      {
        if !answerable(waiting[i].id) {
          return Err(Conflict);
        }
        i := i + 1;
      }
      return Ok(Answer(Requeued(waiting)));
    }
    if exists run :: run in active && !run.status.WaitingInput? && !Steerable(run) {
      return Err(Conflict);
    }
    if steering.Some? {
      r := Ok(Steer(steering.value, Some(steering.value.id)));
    } else if active != [] {
      r := Ok(Steer(active[0], None));
    } else {
      r := Ok(Create);
    }
  }

  // ---------------------------------------------------------------- the group branch

  // What the first loop has stored for one bot after the runs `seen`, of all its active runs `own`.
  ghost predicate Sorted(own: seq<Run>, seen: seq<Run>, answered: Option<seq<Run>>, current: Option<Run>) {
    && answered == (if AnySteers(own) || Waiting(seen) == [] then None else Some(Requeued(Waiting(seen))))
    && (current.None? <==> forall run :: run in seen ==> run.status.WaitingInput?)
    && (current.Some? ==> current.value in seen && !current.value.status.WaitingInput?)
    && (FirstSteering(seen).Some? ==> current == FirstSteering(seen))
    && (FirstSteering(seen).None? && Waiting(seen) == [] && seen != [] ==> current == Some(seen[0]))
  }

  function Lookup<T>(m: map<nat, T>, key: nat): Option<T> {
    if key in m then Some(m[key]) else None
  }

  lemma {:induction false} WaitingAppend(runs: seq<Run>, run: Run)
    ensures Waiting(runs + [run]) == if run.status.WaitingInput? then Waiting(runs) + [run] else Waiting(runs)
  {
    assert (runs + [run])[..|runs|] == runs;
  }

  lemma {:induction false} RequeuedAppend(runs: seq<Run>, run: Run)
    ensures Requeued(runs + [run]) == Requeued(runs) + [run.(status := Queued)]
  {
  }

  // One iteration of the first loop, for the bot the run belongs to.
  lemma {:induction false} SortedStep(own: seq<Run>, seen: seq<Run>, run: Run, answered: Option<seq<Run>>, current: Option<Run>)
    requires Sorted(own, seen, answered, current) && Active(run)
    requires forall r :: r in seen + [run] ==> r in own
    ensures
      if run.status.WaitingInput? then
        if AnySteers(own) then Sorted(own, seen + [run], answered, current)
        else Sorted(own, seen + [run], Some((if answered.Some? then answered.value else []) + [run.(status := Queued)]), current)
      else Sorted(own, seen + [run], answered,
                  if current.None? || (!Steers(current.value) && Steers(run)) then Some(run) else current)
  {
    WaitingAppend(seen, run);
    RequeuedAppend(Waiting(seen), run);
    FirstSteeringAppend(seen, run);
    FirstSteeringIs(seen);
    FirstSteeringIs(seen + [run]);
    assert run in seen + [run];
    if Waiting(seen) == [] {
      forall r | r in seen
        ensures !r.status.WaitingInput?
      {
        FilterIn(seen, (x: Run) => x.status.WaitingInput?, r);
      }
    }
  }

  function ForBot(runs: seq<Run>, bot: nat): seq<Run> {
    Filter(runs, (run: Run) => run.bot == bot)
  }

  // Selecting one bot from the group's query is the direct query.
  lemma {:induction false} ForBotOfGroup(all: seq<Run>, bots: seq<nat>, bot: nat)
    requires bot in bots
    ensures ForBot(ActiveOfAny(all, bots), bot) == ActiveOf(all, bot)
  {
    if all != [] {
      var front, last := all[..|all| - 1], all[|all| - 1];
      ForBotOfGroup(front, bots, bot);
      if last.bot in bots && Active(last) {
        ForBotAppend(ActiveOfAny(front, bots), last, bot);
      }
    }
  }

  lemma {:induction false} ForBotAppend(runs: seq<Run>, run: Run, bot: nat)
    ensures ForBot(runs + [run], bot) == if run.bot == bot then ForBot(runs, bot) + [run] else ForBot(runs, bot)
  {
    assert (runs + [run])[..|runs|] == runs;
  }

  lemma {:induction false} SelectTake(runs: seq<Run>, keep: Run -> bool, i: nat)
    requires i <= |runs|
    ensures forall run :: run in Filter(runs[..i], keep) ==> run in Filter(runs, keep)
  {
    forall run | run in Filter(runs[..i], keep)
      ensures run in Filter(runs, keep)
    {
      FilterIn(runs[..i], keep, run);
      FilterIn(runs, keep, run);
    }
  }

  // The loop state after the first i runs, for every target bot.
  ghost predicate SortedUpTo(active: seq<Run>, i: nat, bots: seq<nat>, answered: map<nat, seq<Run>>, current: map<nat, Run>)
    requires i <= |active|
  {
    forall bot :: bot in bots ==>
      Sorted(ForBot(active, bot), ForBot(active[..i], bot), Lookup(answered, bot), Lookup(current, bot))
  }

  // The waiting runs answered so far could be.
  ghost predicate AnsweredUpTo(active: seq<Run>, i: nat, text: bool, answerable: nat -> bool)
    requires i <= |active|
  {
    forall k :: 0 <= k < i && active[k].status.WaitingInput? && !AnySteers(ForBot(active, active[k].bot)) ==>
      text && answerable(active[k].id)
  }

  lemma {:induction false} SortedUpToStep(active: seq<Run>, i: nat, bots: seq<nat>, answered: map<nat, seq<Run>>, current: map<nat, Run>,
                       answered': map<nat, seq<Run>>, current': map<nat, Run>)
    requires i < |active| && SortedUpTo(active, i, bots, answered, current) && Active(active[i])
    requires answered' == if active[i].status.WaitingInput? && !AnySteers(ForBot(active, active[i].bot))
                          then answered[active[i].bot := (if active[i].bot in answered then answered[active[i].bot] else []) + [active[i].(status := Queued)]]
                          else answered
    requires current' == if !active[i].status.WaitingInput?
                            && (active[i].bot !in current || (!Steers(current[active[i].bot]) && Steers(active[i])))
                         then current[active[i].bot := active[i]] else current
    ensures SortedUpTo(active, i + 1, bots, answered', current')
  {
    var run := active[i];
    forall bot | bot in bots
      ensures Sorted(ForBot(active, bot), ForBot(active[..i + 1], bot), Lookup(answered', bot), Lookup(current', bot))
    {
      assert active[..i + 1] == active[..i] + [run];
      ForBotAppend(active[..i], run, bot);
      if run.bot == bot {
        SelectTake(active, (x: Run) => x.bot == bot, i + 1);
        SortedStep(ForBot(active, bot), ForBot(active[..i], bot), run, Lookup(answered, bot), Lookup(current, bot));
      }
    }
  }

  // After the loop, what the maps hold for a bot is the direct branch's choice.
  lemma {:induction false} SortedIsDirect(own: seq<Run>, answered: Option<seq<Run>>, current: Option<Run>, text: bool, answerable: nat -> bool)
    requires Sorted(own, own, answered, current) && forall run :: run in own ==> Active(run)
    requires forall run :: run in own && run.status.WaitingInput? && !AnySteers(own) ==> text && answerable(run.id)
    ensures
      Direct(own, false, text, answerable) ==
      Ok(if answered.Some? then Answer(answered.value)
         else if current.Some? then Steer(current.value, if Steers(current.value) then Some(current.value.id) else None)
         else Create)
  {
    FirstSteeringIs(own);
    forall run | run in Waiting(own)
      ensures run in own && run.status.WaitingInput?
    {
      FilterIn(own, (x: Run) => x.status.WaitingInput?, run);
    }
    forall run | run in own && run.status.WaitingInput?
      ensures run in Waiting(own)
    {
      FilterIn(own, (x: Run) => x.status.WaitingInput?, run);
    }
    if Waiting(own) != [] {
      assert Waiting(own)[0] in Waiting(own);
    }
  }

  // A waiting run that cannot be answered conflicts in the direct branch of its bot too.
  lemma {:induction false} UnansweredIsDirect(own: seq<Run>, run: Run, text: bool, answerable: nat -> bool)
    requires run in own && run.status.WaitingInput? && !AnySteers(own) && !(text && answerable(run.id))
    ensures Direct(own, false, text, answerable) == Err(Conflict)
  {
    FilterIn(own, (x: Run) => x.status.WaitingInput?, run);
  }

  // One run of the first loop; `ok` is false where the source throws.
  method SortRun(all: seq<Run>, bots: seq<nat>, active: seq<Run>, i: nat, conversational: set<nat>, text: bool, answerable: nat -> bool,
                 answered: map<nat, seq<Run>>, current: map<nat, Run>)
    returns (ok: bool, answered': map<nat, seq<Run>>, current': map<nat, Run>)
    requires active == ActiveOfAny(all, bots) && i < |active|
    requires conversational == set run | run in active && Steers(run) :: run.bot
    requires SortedUpTo(active, i, bots, answered, current) && AnsweredUpTo(active, i, text, answerable)
    ensures ok ==> SortedUpTo(active, i + 1, bots, answered', current') && AnsweredUpTo(active, i + 1, text, answerable)
    ensures !ok ==> active[i].bot in bots && Direct(ActiveOf(all, active[i].bot), false, text, answerable).Err?
  {
    var run := active[i];
    answered', current' := answered, current;
    InActive(all, bots, run);
    ConversationalIs(active, run.bot);
    if run.status.WaitingInput? {
      if run.bot !in conversational {
        if !text || !answerable(run.id) {
          FilterIn(active, (x: Run) => x.bot == run.bot, run);
          ForBotOfGroup(all, bots, run.bot);
          UnansweredIsDirect(ForBot(active, run.bot), run, text, answerable);
          return false, answered', current';
        }
        answered' := answered[run.bot := (if run.bot in answered then answered[run.bot] else []) + [run.(status := Queued)]];
      }
    } else if run.bot !in current || (!Steers(current[run.bot]) && Steers(run)) {
      current' := current[run.bot := run];
    }
    SortedUpToStep(active, i, bots, answered, current, answered', current');
    ok := true;
  }

  /** The first loop: answers the waiting runs and sorts the rest, or finds a target bot in conflict. */
  method SortRuns(all: seq<Run>, bots: seq<nat>, text: bool, answerable: nat -> bool)
    returns (ok: bool, answered: map<nat, seq<Run>>, current: map<nat, Run>)
    ensures ok ==>
      var active := ActiveOfAny(all, bots);
      SortedUpTo(active, |active|, bots, answered, current) && AnsweredUpTo(active, |active|, text, answerable)
    ensures !ok ==> exists bot :: bot in bots && Direct(ActiveOf(all, bot), false, text, answerable).Err?
  {
    var active := ActiveOfAny(all, bots);
    var conversational := set run | run in active && Steers(run) :: run.bot;
    answered, current := map[], map[];
    var i := 0;
    while i < |active|
      invariant 0 <= i <= |active|
      invariant SortedUpTo(active, i, bots, answered, current)
      invariant AnsweredUpTo(active, i, text, answerable)
    {
      ok, answered, current := SortRun(all, bots, active, i, conversational, text, answerable, answered, current);
      if !ok {
        return;
      }
      i := i + 1;
    }
    ok := true;
  }

  // A group's answer is the direct branch's for every target, and a conflict exactly if one target conflicts.
  ghost predicate AgreesWithDirect(all: seq<Run>, bots: seq<nat>, voice: bool, text: bool, answerable: nat -> bool, r: Result<seq<Choice>, Error>) {
    && (r.Err? <==> exists bot :: bot in bots && Direct(ActiveOf(all, bot), voice, text, answerable).Err?)
    && (r.Ok? ==>
          && |r.value| == |bots|
          && forall k :: 0 <= k < |bots| ==> Direct(ActiveOf(all, bots[k]), voice, text, answerable) == Ok(r.value[k]))
  }

  lemma {:induction false} GroupServes(all: seq<Run>, bots: seq<nat>, text: bool, answerable: nat -> bool)
    ensures forall bot :: bot in bots ==> Serves(all, bot, text, answerable, Direct(ActiveOf(all, bot), false, text, answerable))
    ensures forall bot :: bot in bots && Serves(all, bot, text, answerable, Err(Conflict)) ==> Direct(ActiveOf(all, bot), false, text, answerable).Err?
  {
    forall bot | bot in bots
      ensures Serves(all, bot, text, answerable, Direct(ActiveOf(all, bot), false, text, answerable))
      ensures Serves(all, bot, text, answerable, Err(Conflict)) ==> Direct(ActiveOf(all, bot), false, text, answerable).Err?
    {
      DirectServes(all, bot, text, answerable);
      ConflictAlone(all, bot, text, answerable, Direct(ActiveOf(all, bot), false, text, answerable));
    }
  }

  lemma {:induction false} ConflictAlone(all: seq<Run>, bot: nat, text: bool, answerable: nat -> bool, r: Result<Choice, Error>)
    ensures Serves(all, bot, text, answerable, r) && Serves(all, bot, text, answerable, Err(Conflict)) ==> r.Err?
  {
    var asked := Filter(all, (run: Run) => AsksUser(run, bot));
    if asked != [] {
      FilterIn(all, (x: Run) => AsksUser(x, bot), asked[0]);
      assert InFlight(asked[0], bot);
    }
  }

  /**
   The group branch in its own form: one loop sorts the runs into two maps, a second walks the
   targets. It conflicts exactly when the direct branch conflicts for some target, and
   otherwise makes, for every target, the direct branch's choice.
   */
  method DispatchGroup(all: seq<Run>, bots: seq<nat>, text: bool, answerable: nat -> bool) returns (r: Result<seq<Choice>, Error>)
    ensures AgreesWithDirect(all, bots, false, text, answerable, r)
    ensures r.Ok? ==> |r.value| == |bots| && forall k :: 0 <= k < |bots| ==> Serves(all, bots[k], text, answerable, Ok(r.value[k]))
    ensures r.Err? <==> exists bot :: bot in bots && Serves(all, bot, text, answerable, Err(Conflict))
  {
    GroupServes(all, bots, text, answerable);
    var ok, answered, current := SortRuns(all, bots, text, answerable);
    if !ok {
      return Err(Conflict);
    }
    var choices: seq<Choice> := [];
    var k := 0;
    while k < |bots|
      invariant 0 <= k <= |bots| && |choices| == k
      invariant forall j :: 0 <= j < k ==> Direct(ActiveOf(all, bots[j]), false, text, answerable) == Ok(choices[j])
    {
      var bot := bots[k];
      AfterSorting(all, bots, bot, answered, current, text, answerable);
      if bot in answered {
        choices := choices + [Answer(answered[bot])];
      } else if bot in current {
        choices := choices + [Steer(current[bot], if Steers(current[bot]) then Some(current[bot].id) else None)];
      } else {
        choices := choices + [Create];
      }
      k := k + 1;
    }
    r := Ok(choices);
  }

  lemma {:induction false} InActive(all: seq<Run>, bots: seq<nat>, run: Run)
    requires run in ActiveOfAny(all, bots)
    ensures Active(run) && run.bot in bots
  {
    FilterIn(all, (x: Run) => x.bot in bots && Active(x), run);
  }

  lemma {:induction false} ConversationalIs(active: seq<Run>, bot: nat)
    ensures AnySteers(ForBot(active, bot)) <==> exists run :: run in active && Steers(run) && run.bot == bot
  {
    forall run | run in active || run in ForBot(active, bot)
      ensures run in ForBot(active, bot) <==> run in active && run.bot == bot
    {
      FilterIn(active, (x: Run) => x.bot == bot, run);
    }
  }

  lemma {:induction false} AfterSorting(all: seq<Run>, bots: seq<nat>, bot: nat, answered: map<nat, seq<Run>>, current: map<nat, Run>,
                     text: bool, answerable: nat -> bool)
    requires bot in bots
    requires
      var active := ActiveOfAny(all, bots);
      SortedUpTo(active, |active|, bots, answered, current) && AnsweredUpTo(active, |active|, text, answerable)
    ensures
      Direct(ActiveOf(all, bot), false, text, answerable) ==
      Ok(if bot in answered then Answer(answered[bot])
         else if bot in current then Steer(current[bot], if Steers(current[bot]) then Some(current[bot].id) else None)
         else Create)
  {
    var active := ActiveOfAny(all, bots);
    var own := ForBot(active, bot);
    assert active[..|active|] == active;
    ForBotOfGroup(all, bots, bot);
    forall run | run in own
      ensures Active(run) && (run.status.WaitingInput? && !AnySteers(own) ==> text && answerable(run.id))
    {
      FilterIn(active, (x: Run) => x.bot == bot, run);
      InActive(all, bots, run);
    }
    SortedIsDirect(own, Lookup(answered, bot), Lookup(current, bot), text, answerable);
  }

  // The bot waits for an answer that the message does not give, and nothing can be steered.
  predicate Unanswered(runs: seq<Run>, text: bool, answerable: nat -> bool) {
    Waiting(runs) != [] && !AnySteers(runs) && !(text && forall run :: run in Waiting(runs) ==> answerable(run.id))
  }

  // In chat mode the only conflict left by active runs is an ask that stays unanswered.
  lemma {:induction false} ChatConflicts(all: seq<Run>, bot: nat, text: bool, answerable: nat -> bool)
    ensures Direct(ActiveOf(all, bot), false, text, answerable).Err? <==> Unanswered(ActiveOf(all, bot), text, answerable)
  {
    ActiveRuns(all, bot);
  }

  /**
   The group dispatcher has no voice check: its answer is the direct branch's for a voice turn
   exactly when no target has work in flight or some target's ask stays unanswered.
   */
  lemma {:induction false} VoiceDiffers(all: seq<Run>, bots: seq<nat>, text: bool, answerable: nat -> bool, group: Result<seq<Choice>, Error>)
    requires AgreesWithDirect(all, bots, false, text, answerable, group)
    ensures AgreesWithDirect(all, bots, true, text, answerable, group)
            <==> (forall bot :: bot in bots ==> ActiveOf(all, bot) == [])
                 || (exists bot :: bot in bots && Unanswered(ActiveOf(all, bot), text, answerable))
  {
    forall bot | bot in bots
      ensures Direct(ActiveOf(all, bot), false, text, answerable).Err? <==> Unanswered(ActiveOf(all, bot), text, answerable)
      ensures Direct(ActiveOf(all, bot), true, text, answerable)
              == if ActiveOf(all, bot) == [] then Direct(ActiveOf(all, bot), false, text, answerable) else Err(Conflict)
    {
      ChatConflicts(all, bot, text, answerable);
    }
    if group.Ok? && AgreesWithDirect(all, bots, true, text, answerable, group) {
      forall bot | bot in bots
        ensures ActiveOf(all, bot) == []
      {
        assert !Direct(ActiveOf(all, bot), true, text, answerable).Err?;
      }
    }
    if bot :| bot in bots && Unanswered(ActiveOf(all, bot), text, answerable) {
      assert Direct(ActiveOf(all, bot), true, text, answerable).Err?;
    }
  }

  /** One running turn of the user's: the group steers it, the direct branch of a voice turn conflicts. */
  lemma {:induction false} VoiceConflictsAlone(text: bool, answerable: nat -> bool, group: Result<seq<Choice>, Error>)
    requires AgreesWithDirect([Run(1, 1, 7, Running, User)], [7], false, text, answerable, group)
    ensures
      var run := Run(1, 1, 7, Running, User);
      group == Ok([Steer(run, Some(1))]) && Direct(ActiveOf([run], 7), true, text, answerable) == Err(Conflict)
  {
    var run := Run(1, 1, 7, Running, User);
    assert [run][..0] == [];
    assert ActiveOf([run], 7) == [run];
    assert Waiting([run]) == [];
    assert Direct([run], false, text, answerable) == Ok(Steer(run, Some(1)));
    assert forall bot :: bot in [7] ==> bot == 7;
    assert group.Ok? ==> group.value == [group.value[0]];
  }
}
