/**
 The ambient pass over observed chat messages: per conversation, automated senders the policy
 ignores are dropped, the rest may be judged, and then one message is promoted to start a run and
 the others are ignored. Every write is conditional on the row still being observed, because
 anything may happen to the table while the pass awaits a query or the judge.
 */
module AmbientPass {
  import opened Common
  import opened TeamChatRow

  const CONTEXT_MESSAGES := 20
  const BATCH_SIZE := 100
  const HOUR_MS := 60 * 60 * 1000

  datatype Message = Message(
    id: nat,
    event: nat,
    conversation: nat,
    sender: nat,
    senderIsBot: bool,
    createdAt: int,
    status: Status,
    judgedAt: Option<int>)

  datatype Mode = Ignore | Rollup | Action

  datatype SenderPolicy = SenderPolicy(mode: Mode, rollupHours: nat)

  // A conversation's own settings, with those of the bot filled in.
  datatype Config = Config(ambientEnabled: bool, policies: map<nat, SenderPolicy>)

  datatype Decision = Decision(act: bool, askedBy: Option<nat>)

  type Table = map<nat, Message>

  // What others do to the table while the pass awaits its n-th answer, and whether that answer is a rejection.
  datatype World = World(meanwhile: (nat, Table) -> Table, rejects: nat -> bool)

  // None when the judge throws.
  type Judge = (nat, seq<Message>) -> Option<Decision>

  datatype Verdict = Undecided | Thrown | Drop | Promote(trigger: nat)

  datatype Plan = Plan(evaluated: seq<Message>, verdict: Verdict)

  // Nobody else touches the table and every query is answered.
  ghost predicate Quiet(world: World) {
    (forall n, t :: world.meanwhile(n, t) == t) && forall n :: !world.rejects(n)
  }

  function Ids(ms: seq<Message>): set<nat> {
    set m | m in ms :: m.id
  }

  // ---------------------------------------------------------------- which messages are judged

  predicate PolicyIgnores(config: Config, m: Message) {
    m.senderIsBot && (m.sender !in config.policies || config.policies[m.sender].mode.Ignore?)
  }

  predicate Immediate(config: Config, m: Message) {
    !m.senderIsBot || m.sender !in config.policies || !config.policies[m.sender].mode.Rollup?
  }

  predicate Actionable(config: Config, m: Message) {
    m.senderIsBot && m.sender in config.policies && config.policies[m.sender].mode.Action?
  }

  function Kept(config: Config): Message -> bool {
    (m: Message) => !PolicyIgnores(config, m)
  }

  function Dropped(config: Config): Message -> bool {
    (m: Message) => PolicyIgnores(config, m)
  }

  function SentBy(senders: set<nat>): Message -> bool {
    (m: Message) => m.sender in senders
  }

  function InConversation(c: nat): Message -> bool {
    (m: Message) => m.conversation == c
  }

  predicate HasImmediate(config: Config, ms: seq<Message>) {
    exists m :: m in ms && Immediate(config, m)
  }

  // The sender has no judged message in the conversation within its rollup hours.
  predicate RollupDue(rows: Table, config: Config, conversation: nat, sender: nat, now: int) {
    && sender in config.policies && config.policies[sender].rollupHours > 0
    && forall id :: id in rows && rows[id].conversation == conversation && rows[id].sender == sender
         && rows[id].senderIsBot && rows[id].judgedAt.Some?
         ==> rows[id].judgedAt.value <= now - config.policies[sender].rollupHours * HOUR_MS
  }

  function Window(evaluated: seq<Message>): seq<Message> {
    if |evaluated| <= CONTEXT_MESSAGES then evaluated else evaluated[|evaluated| - CONTEXT_MESSAGES..]
  }

  function LastActionable(config: Config, ms: seq<Message>): Option<Message> {
    if ms == [] then None
    else if Actionable(config, ms[|ms| - 1]) then Some(ms[|ms| - 1])
    else LastActionable(config, ms[..|ms| - 1])
  }

  function FindEvent(ms: seq<Message>, event: Option<nat>): Option<Message> {
    if ms == [] then None else if event == Some(ms[0].event) then Some(ms[0]) else FindEvent(ms[1..], event)
  }

  function Decide(config: Config, judge: Option<Judge>, evaluated: seq<Message>): Option<Decision>
    requires evaluated != []
  {
    var actionable := LastActionable(config, Window(evaluated));
    if actionable.Some? then Some(Decision(true, Some(actionable.value.event)))
    else if judge.Some? then judge.value(evaluated[|evaluated| - 1].conversation, Window(evaluated))
    else Some(Decision(false, None))
  }

  function TriggerOf(evaluated: seq<Message>, decision: Decision): Message
    requires evaluated != []
  {
    var asked := FindEvent(Window(evaluated), decision.askedBy);
    if asked.Some? then asked.value else evaluated[|evaluated| - 1]
  }

  function VerdictOf(config: Config, judge: Option<Judge>, evaluated: seq<Message>, cutoff: int): Verdict {
    if evaluated == [] || evaluated[|evaluated| - 1].createdAt > cutoff then Undecided
    else
      var decision := Decide(config, judge, evaluated);
      if decision.None? then Thrown
      else if decision.value.act then Promote(TriggerOf(evaluated, decision.value).id)
      else Drop
  }

  // What the pass owes each message of a conversation.
  function Outcome(config: Config, plan: Plan, m: Message): Status {
    if !config.ambientEnabled || PolicyIgnores(config, m) then Ignored
    else if m !in plan.evaluated || plan.verdict.Undecided? || plan.verdict.Thrown? then Observed
    else if plan.verdict == Promote(m.id) then Received
    else Ignored
  }

  ghost function Owed(config: Config, plan: Plan, ms: seq<Message>, status: Status): set<nat> {
    set m | m in ms && Outcome(config, plan, m) == status :: m.id
  }

  function Evaluated(config: Config, ms: seq<Message>, due: set<nat>): seq<Message> {
    var candidates := Filter(ms, Kept(config));
    if HasImmediate(config, candidates) then candidates else Filter(candidates, SentBy(due))
  }

  // The plan follows from the messages, the senders found due and the judge.
  ghost predicate PlanFor(config: Config, judge: Option<Judge>, cutoff: int, ms: seq<Message>, due: set<nat>, plan: Plan) {
    if !config.ambientEnabled then plan == Plan([], Undecided)
    else
      && plan.evaluated == Evaluated(config, ms, due)
      && plan.verdict == VerdictOf(config, judge, plan.evaluated, cutoff)
  }

  lemma {:induction false} FindEventIn(ms: seq<Message>, event: Option<nat>)
    ensures FindEvent(ms, event).Some? ==> FindEvent(ms, event).value in ms && event == Some(FindEvent(ms, event).value.event)
    ensures FindEvent(ms, event).None? <==> forall m :: m in ms ==> event != Some(m.event)
  {
    if ms != [] {
      FindEventIn(ms[1..], event);
      assert ms == [ms[0]] + ms[1..];
    }
  }

  lemma {:induction false} LastActionableIn(config: Config, ms: seq<Message>)
    ensures LastActionable(config, ms).Some? ==>
              LastActionable(config, ms).value in ms && Actionable(config, LastActionable(config, ms).value)
    ensures LastActionable(config, ms).None? <==> forall m :: m in ms ==> !Actionable(config, m)
  {
    if ms != [] {
      LastActionableIn(config, ms[..|ms| - 1]);
      assert ms == ms[..|ms| - 1] + [ms[|ms| - 1]];
    }
  }

  lemma {:induction false} TriggerIn(evaluated: seq<Message>, decision: Decision)
    requires evaluated != []
    ensures TriggerOf(evaluated, decision) in evaluated
  {
    FindEventIn(Window(evaluated), decision.askedBy);
    assert forall m :: m in Window(evaluated) ==> m in evaluated;
  }

  // ---------------------------------------------------------------- what a verdict means

  // The promoted message is the first with the asked event, or the newest if there is none.
  ghost predicate Promotes(window: seq<Message>, asked: Option<nat>, newest: Message, verdict: Verdict) {
    if exists i :: 0 <= i < |window| && asked == Some(window[i].event)
    then exists i :: 0 <= i < |window| && asked == Some(window[i].event) && verdict == Promote(window[i].id)
           && forall j :: 0 <= j < i ==> asked != Some(window[j].event)
    else verdict == Promote(newest.id)
  }

  predicate ByActionable(config: Config, m: Message) {
    m.senderIsBot && m.sender in config.policies && config.policies[m.sender].mode == Action
  }

  /**
   Nothing is decided while there is nothing to judge or the newest message is too recent. The last
   actionable automated sender among the last twenty messages is acted on; otherwise the judge
   decides, and without a judge all are dropped.
   */
  ghost predicate Warranted(config: Config, judge: Option<Judge>, cutoff: int, evaluated: seq<Message>, verdict: Verdict) {
    if evaluated == [] || evaluated[|evaluated| - 1].createdAt > cutoff then verdict == Undecided
    else
      var newest := evaluated[|evaluated| - 1];
      var window := if |evaluated| <= 20 then evaluated else evaluated[|evaluated| - 20..];
      if exists k :: 0 <= k < |window| && ByActionable(config, window[k])
      then exists k :: 0 <= k < |window| && ByActionable(config, window[k]) && Promotes(window, Some(window[k].event), newest, verdict)
             && forall j :: k < j < |window| ==> !ByActionable(config, window[j])
      else if judge.None? then verdict == Drop
      else match judge.value(newest.conversation, window)
        case None => verdict == Thrown
        case Some(Decision(true, asked)) => Promotes(window, asked, newest, verdict)
        case Some(Decision(false, _)) => verdict == Drop
  }

  lemma {:induction false} FindEventFirst(ms: seq<Message>, event: Option<nat>, newest: Message)
    ensures Promotes(ms, event, newest, Promote((if FindEvent(ms, event).Some? then FindEvent(ms, event).value else newest).id))
  {
    if ms != [] && event != Some(ms[0].event) {
      var rest := ms[1..];
      FindEventFirst(rest, event, newest);
      FindEventIn(ms, event);
      if FindEvent(ms, event).Some? {
        FindEventIn(rest, event);
        var i :| 0 <= i < |rest| && event == Some(rest[i].event) && Promote(FindEvent(rest, event).value.id) == Promote(rest[i].id)
          && forall j :: 0 <= j < i ==> event != Some(rest[j].event);
        assert ms[i + 1] == rest[i];
        assert forall j :: 0 < j <= i ==> ms[j] == rest[j - 1];
      }
    }
  }

  lemma {:induction false} LastActionableLast(config: Config, ms: seq<Message>)
    ensures LastActionable(config, ms).Some? <==> exists k :: 0 <= k < |ms| && ByActionable(config, ms[k])
    ensures LastActionable(config, ms).Some? ==>
              exists k :: 0 <= k < |ms| && ByActionable(config, ms[k]) && ms[k] == LastActionable(config, ms).value
                && forall j :: k < j < |ms| ==> !ByActionable(config, ms[j])
  {
    if ms != [] {
      var front := ms[..|ms| - 1];
      LastActionableLast(config, front);
      assert forall k :: 0 <= k < |front| ==> ms[k] == front[k];
      if Actionable(config, ms[|ms| - 1]) {
        assert ByActionable(config, ms[|ms| - 1]);
      }
    }
  }

  lemma {:induction false} ActionableWarranted(config: Config, judge: Option<Judge>, cutoff: int, evaluated: seq<Message>)
    requires evaluated != [] && evaluated[|evaluated| - 1].createdAt <= cutoff && LastActionable(config, Window(evaluated)).Some?
    ensures Warranted(config, judge, cutoff, evaluated, VerdictOf(config, judge, evaluated, cutoff))
  {
    var window, newest := Window(evaluated), evaluated[|evaluated| - 1];
    LastActionableLast(config, window);
    var asked := Some(LastActionable(config, window).value.event);
    FindEventFirst(window, asked, newest);
    assert VerdictOf(config, judge, evaluated, cutoff) == Promote((if FindEvent(window, asked).Some? then FindEvent(window, asked).value else newest).id);
  }

  lemma {:induction false} JudgeWarranted(config: Config, judge: Option<Judge>, cutoff: int, evaluated: seq<Message>)
    requires evaluated != [] && evaluated[|evaluated| - 1].createdAt <= cutoff && LastActionable(config, Window(evaluated)).None?
    ensures Warranted(config, judge, cutoff, evaluated, VerdictOf(config, judge, evaluated, cutoff))
  {
    var window, newest := Window(evaluated), evaluated[|evaluated| - 1];
    LastActionableLast(config, window);
    if judge.Some? && judge.value(newest.conversation, window).Some? {
      FindEventFirst(window, judge.value(newest.conversation, window).value.askedBy, newest);
    }
  }

  /** The verdict on the evaluated messages is the warranted one. */
  lemma {:induction false} VerdictWarranted(config: Config, judge: Option<Judge>, cutoff: int, evaluated: seq<Message>)
    ensures Warranted(config, judge, cutoff, evaluated, VerdictOf(config, judge, evaluated, cutoff))
  {
    if evaluated != [] && evaluated[|evaluated| - 1].createdAt <= cutoff {
      if LastActionable(config, Window(evaluated)).Some? {
        ActionableWarranted(config, judge, cutoff, evaluated);
      } else {
        JudgeWarranted(config, judge, cutoff, evaluated);
      }
    }
  }

  /** With no actionable sender in the window the judge alone decides: act, decline, or throw; absent, everything is dropped. */
  lemma {:induction false} JudgeDecides(config: Config, judge: Option<Judge>, cutoff: int, evaluated: seq<Message>, verdict: Verdict)
    requires Warranted(config, judge, cutoff, evaluated, verdict)
    requires evaluated != [] && evaluated[|evaluated| - 1].createdAt <= cutoff
    requires
      var window := if |evaluated| <= 20 then evaluated else evaluated[|evaluated| - 20..];
      forall m :: m in window ==> !ByActionable(config, m)
    ensures
      var window := if |evaluated| <= 20 then evaluated else evaluated[|evaluated| - 20..];
      var answer := if judge.Some? then judge.value(evaluated[|evaluated| - 1].conversation, window) else Some(Decision(false, None));
      && (verdict.Promote? <==> answer.Some? && answer.value.act)
      && (verdict.Drop? <==> answer.Some? && !answer.value.act)
      && (verdict.Thrown? <==> answer.None?)
      && (verdict.Promote? ==> Promotes(window, answer.value.askedBy, evaluated[|evaluated| - 1], verdict))
  {
    var window := if |evaluated| <= 20 then evaluated else evaluated[|evaluated| - 20..];
    assert forall k :: 0 <= k < |window| ==> window[k] in window;
  }

  /** A message of a sender configured as actionable is promoted without asking the judge. */
  lemma {:induction false} ActionableIsPromoted(config: Config, judge: Option<Judge>, evaluated: seq<Message>, cutoff: int)
    requires evaluated != [] && evaluated[|evaluated| - 1].createdAt <= cutoff
    requires exists m :: m in Window(evaluated) && Actionable(config, m)
    requires forall m, m' :: m in evaluated && m' in evaluated && m.event == m'.event ==> m == m'
    ensures exists m :: m in Window(evaluated) && Actionable(config, m)
              && VerdictOf(config, judge, evaluated, cutoff) == Promote(m.id)
  {
    LastActionableIn(config, Window(evaluated));
    var m := LastActionable(config, Window(evaluated)).value;
    FindEventIn(Window(evaluated), Some(m.event));
    assert forall x :: x in Window(evaluated) ==> x in evaluated;
    assert TriggerOf(evaluated, Decision(true, Some(m.event))) == m;
  }

  // A sender without a policy, or with one to ignore it, is dropped unjudged; a person never is.
  predicate DroppedUnjudged(config: Config, m: Message) {
    m.senderIsBot && (if m.sender in config.policies then config.policies[m.sender].mode == Ignore else true)
  }

  predicate AsksAtOnce(config: Config, m: Message) {
    !m.senderIsBot || (m.sender in config.policies && config.policies[m.sender].mode != Rollup)
  }

  /**
   A conversation's plan in terms of its messages: where ambient answers are on, automated senders
   without a policy or with one to ignore are dropped, and the rest is judged together if one of
   them is not a rollup sender's, else only the messages of senders that are due.
   */
  lemma {:induction false} PlanMeans(config: Config, judge: Option<Judge>, cutoff: int, ms: seq<Message>, due: set<nat>, plan: Plan)
    requires PlanFor(config, judge, cutoff, ms, due, plan) && config.ambientEnabled
    ensures Warranted(config, judge, cutoff, plan.evaluated, plan.verdict)
    ensures
      var atOnce := exists m :: m in ms && !DroppedUnjudged(config, m) && AsksAtOnce(config, m);
      forall m :: m in plan.evaluated <==> m in ms && !DroppedUnjudged(config, m) && (atOnce || m.sender in due)
    ensures forall m :: m in ms ==>
      && (Outcome(config, plan, m) == Observed <==>
            !DroppedUnjudged(config, m) && (m !in plan.evaluated || plan.verdict.Undecided? || plan.verdict.Thrown?))
      && (Outcome(config, plan, m) == Received <==> m in plan.evaluated && plan.verdict == Promote(m.id))
      && (Outcome(config, plan, m) != Observed && Outcome(config, plan, m) != Received ==> Outcome(config, plan, m) == Ignored)
  {
    VerdictWarranted(config, judge, cutoff, plan.evaluated);
    var kept := Filter(ms, Kept(config));
    FilterMembers(ms, Kept(config));
    FilterMembers(kept, SentBy(due));
    assert forall m :: m in kept ==> (Immediate(config, m) <==> AsksAtOnce(config, m));
    assert forall m :: m in ms ==> (m in kept <==> !DroppedUnjudged(config, m));
  }

  // ---------------------------------------------------------------- the table after the pass's writes

  function Marked(start: Table, ignored: set<nat>, promoted: set<nat>, now: int): Table {
    map id | id in start ::
      if id in promoted then start[id].(status := Received, judgedAt := Some(now))
      else if id in ignored then start[id].(status := Ignored, judgedAt := Some(now))
      else start[id]
  }

  ghost predicate Fetched(start: Table, ms: seq<Message>) {
    forall m :: m in ms ==> m.id in start && start[m.id] == m && m.status.Observed?
  }

  // ---------------------------------------------------------------- the history of the table

  /**
   One await of the pass: the table as its query found it, the rows it names, the status it is to
   give those still observed (none for a read or a rejected query), and the table it leaves.
   */
  datatype Query = Query(seen: Table, named: set<nat>, to: Option<Status>, left: Table)

  // The rows a guarded update changes.
  function Hits(q: Query): set<nat> {
    if q.to.None? then {} else set id | id in q.named && id in q.seen && q.seen[id].status.Observed?
  }

  function Written(seen: Table, hits: set<nat>, to: Option<Status>, now: int): Table {
    if to.None? then seen
    else map id | id in seen :: if id in hits then seen[id].(status := to.value, judgedAt := Some(now)) else seen[id]
  }

  function TableAfter(start: Table, log: seq<Query>): Table {
    if log == [] then start else log[|log| - 1].left
  }

  // Query n found what the world made of the table before it, and changed its hits and nothing else.
  ghost predicate HappenedAt(start: Table, world: World, now: int, log: seq<Query>, n: nat)
    requires n < |log|
  {
    var q := log[n];
    && q.seen == world.meanwhile(n, TableAfter(start, log[..n]))
    && (q.to.Some? ==> q.to.value.Ignored? || q.to.value.Received?)
    && (world.rejects(n) ==> q.to.None?)
    && q.left == Written(q.seen, Hits(q), q.to, now)
  }

  ghost predicate Happened(start: Table, world: World, now: int, log: seq<Query>) {
    forall n: nat :: n < |log| ==> HappenedAt(start, world, now, log, n)
  }

  // The rows moved to a status by a guarded update of the pass.
  ghost function MovedTo(log: seq<Query>, status: Status): set<nat> {
    if log == [] then {}
    else
      var q := log[|log| - 1];
      MovedTo(log[..|log| - 1], status) + if q.to == Some(status) then Hits(q) else {}
  }

  ghost predicate Moved(log: seq<Query>, n: nat, id: nat, status: Status) {
    n < |log| && log[n].to == Some(status) && id in Hits(log[n])
  }

  lemma {:induction false} MovedAt(log: seq<Query>, id: nat, status: Status)
    ensures id in MovedTo(log, status) <==> exists n: nat :: Moved(log, n, id, status)
  {
    if log != [] {
      var front, last := log[..|log| - 1], |log| - 1;
      MovedAt(front, id, status);
      if id in MovedTo(front, status) {
        var n: nat :| Moved(front, n, id, status);
        assert Moved(log, n, id, status);
      } else if id in MovedTo(log, status) {
        assert Moved(log, last, id, status);
      }
      if n: nat :| Moved(log, n, id, status) {
        assert n < last ==> Moved(front, n, id, status);
      }
    }
  }

  lemma {:induction false} HistoryGrows(start: Table, world: World, now: int, log: seq<Query>, q: Query)
    requires Happened(start, world, now, log)
    requires q.seen == world.meanwhile(|log|, TableAfter(start, log))
    requires (q.to.Some? ==> q.to.value.Ignored? || q.to.value.Received?) && (world.rejects(|log|) ==> q.to.None?)
    requires q.left == Written(q.seen, Hits(q), q.to, now)
    ensures Happened(start, world, now, log + [q]) && TableAfter(start, log + [q]) == q.left
    ensures MovedTo(log + [q], Ignored) == MovedTo(log, Ignored) + (if q.to == Some(Ignored) then Hits(q) else {})
    ensures MovedTo(log + [q], Received) == MovedTo(log, Received) + (if q.to == Some(Received) then Hits(q) else {})
  {
    var log' := log + [q];
    assert log'[..|log|] == log;
    forall n: nat | n < |log'|
      ensures HappenedAt(start, world, now, log', n)
    {
      assert log'[..n] == log[..n];
      if n < |log| {
        assert HappenedAt(start, world, now, log, n);
      }
    }
  }

  lemma {:induction false} FilterMembers(ms: seq<Message>, keep: Message -> bool)
    ensures forall m :: m in Filter(ms, keep) <==> m in ms && keep(m)
  {
    forall m
      ensures m in Filter(ms, keep) <==> m in ms && keep(m)
    {
      FilterIn(ms, keep, m);
    }
  }

  // The sender's automated messages of the conversation that were judged.
  ghost predicate JudgedFrom(rows: Table, conversation: nat, sender: nat, id: nat) {
    id in rows && rows[id].conversation == conversation && rows[id].sender == sender && rows[id].senderIsBot && rows[id].judgedAt.Some?
  }

  /** A rollup sender is due at first, and again from its rollup hours after its latest judged message on. */
  lemma {:induction false} RollupDueAgain(rows: Table, config: Config, conversation: nat, sender: nat, latest: nat, now: int)
    requires sender in config.policies && config.policies[sender].rollupHours > 0
    ensures (forall id :: !JudgedFrom(rows, conversation, sender, id)) ==> RollupDue(rows, config, conversation, sender, now)
    ensures JudgedFrom(rows, conversation, sender, latest)
            && (forall id :: JudgedFrom(rows, conversation, sender, id) ==> rows[id].judgedAt.value <= rows[latest].judgedAt.value)
            ==> (RollupDue(rows, config, conversation, sender, now)
                 <==> rows[latest].judgedAt.value + config.policies[sender].rollupHours * 3_600_000 <= now)
  {
    assert RollupDue(rows, config, conversation, sender, now) <==>
      forall id :: JudgedFrom(rows, conversation, sender, id) ==>
        rows[id].judgedAt.value <= now - config.policies[sender].rollupHours * HOUR_MS;
  }

  function NotId(id: nat): Message -> bool {
    (m: Message) => m.id != id
  }

  // Senders due by the table as it was fetched.
  function DueSenders(start: Table, config: Config, conversation: nat, ms: seq<Message>, now: int): set<nat> {
    set m | m in ms && RollupDue(start, config, conversation, m.sender, now) :: m.sender
  }

  // The pass's own writes do not make a sender less due, if they leave its messages alone.
  lemma {:induction false} RollupDueUnmoved(start: Table, ignored: set<nat>, promoted: set<nat>, config: Config, conversation: nat, sender: nat, now: int)
    requires forall id :: id in ignored + promoted && id in start ==>
               start[id].conversation != conversation || start[id].sender != sender
    ensures RollupDue(Marked(start, ignored, promoted, now), config, conversation, sender, now)
            == RollupDue(start, config, conversation, sender, now)
  {
    var rows := Marked(start, ignored, promoted, now);
    assert forall id :: id in rows && start[id].conversation == conversation && start[id].sender == sender ==> rows[id] == start[id];
  }

  // The rows a verdict on the evaluated messages ignores and promotes.
  ghost function DroppedBy(evaluated: seq<Message>, verdict: Verdict): set<nat> {
    match verdict
    case Drop => Ids(evaluated)
    case Promote(trigger) => Ids(evaluated) - {trigger}
    case _ => {}
  }

  ghost function PromotedBy(verdict: Verdict): set<nat> {
    if verdict.Promote? then {verdict.trigger} else {}
  }

  lemma {:induction false} OwedSplits(start: Table, config: Config, plan: Plan, ms: seq<Message>)
    requires config.ambientEnabled && Fetched(start, ms)
    requires forall m :: m in plan.evaluated ==> m in ms && !PolicyIgnores(config, m)
    requires plan.verdict.Promote? ==> plan.verdict.trigger in Ids(plan.evaluated)
    ensures Owed(config, plan, ms, Ignored) == Ids(Filter(ms, Dropped(config))) + DroppedBy(plan.evaluated, plan.verdict)
    ensures Owed(config, plan, ms, Received) == PromotedBy(plan.verdict)
  {
    FilterMembers(ms, Dropped(config));
    forall m | m in plan.evaluated && plan.verdict == Promote(m.id)
      ensures m.id in Owed(config, plan, ms, Received)
    {
      assert Outcome(config, plan, m) == Received;
    }
    forall m | m in ms && Outcome(config, plan, m) == Ignored
      ensures m.id in Ids(Filter(ms, Dropped(config))) + DroppedBy(plan.evaluated, plan.verdict)
    {
    }
    forall m | m in Filter(ms, Dropped(config))
      ensures m.id in Owed(config, plan, ms, Ignored)
    {
      assert Outcome(config, plan, m) == Ignored;
    }
    forall m | m in plan.evaluated && m.id in DroppedBy(plan.evaluated, plan.verdict)
      ensures m.id in Owed(config, plan, ms, Ignored)
    {
      assert Outcome(config, plan, m) == Ignored;
    }
  }

  // Any other message of the batch was ignored only after its trigger had been promoted.
  ghost predicate TriggerFirst(log: seq<Query>, config: Config, plan: Plan, ms: seq<Message>) {
    plan.verdict.Promote? ==>
      forall n: nat, id: nat :: Moved(log, n, id, Ignored) && id in Ids(ms) - Ids(Filter(ms, Dropped(config)))
        ==> PromotedBefore(log, n, plan.verdict.trigger)
  }

  ghost predicate PromotedBefore(log: seq<Query>, n: nat, trigger: nat) {
    exists m: nat :: m < n && Moved(log, m, trigger, Received)
  }

  /**
   A conversation's rows after its turn: only owed writes were made, the others of a judged
   batch only after the promotion had succeeded, and undisturbed every owed write was made.
   */
  ghost predicate Done(log: seq<Query>, config: Config, plan: Plan, ms: seq<Message>, quiet: bool) {
    var ignored, promoted := MovedTo(log, Ignored), MovedTo(log, Received);
    && ignored * Ids(ms) <= Owed(config, plan, ms, Ignored)
    && promoted * Ids(ms) <= Owed(config, plan, ms, Received)
    && TriggerFirst(log, config, plan, ms)
    && (quiet ==> ignored * Ids(ms) == Owed(config, plan, ms, Ignored) && promoted * Ids(ms) == Owed(config, plan, ms, Received))
  }

  lemma {:induction false} EvaluatedKept(config: Config, ms: seq<Message>, due: set<nat>)
    ensures forall m :: m in Evaluated(config, ms, due) ==> m in ms && !PolicyIgnores(config, m)
  {
    FilterMembers(ms, Kept(config));
    FilterMembers(Filter(ms, Kept(config)), SentBy(due));
  }

  // When only rollup senders are left, none of them had a message dropped.
  lemma {:induction false} RollupSendersKept(start: Table, config: Config, ms: seq<Message>)
    requires Fetched(start, ms) && !HasImmediate(config, Filter(ms, Kept(config)))
    ensures forall id, m :: id in Ids(Filter(ms, Dropped(config))) && id in start && m in Filter(ms, Kept(config)) ==> start[id].sender != m.sender
  {
    FilterMembers(ms, Kept(config));
    FilterMembers(ms, Dropped(config));
    forall id, m | id in Ids(Filter(ms, Dropped(config))) && id in start && m in Filter(ms, Kept(config))
      ensures start[id].sender != m.sender
    {
      assert !Immediate(config, m);
    }
  }

  // The later part of a log names these rows only.
  ghost predicate NamesOnly(log: seq<Query>, from: nat, ids: set<nat>) {
    forall n :: from <= n < |log| ==> log[n].named <= ids
  }

  lemma {:induction false} MovedOnly(before: seq<Query>, log: seq<Query>, ids: set<nat>, status: Status)
    requires before <= log && NamesOnly(log, |before|, ids)
    ensures MovedTo(before, status) <= MovedTo(log, status) <= MovedTo(before, status) + ids
    decreases |log|
  {
    if |before| == |log| {
      assert before == log;
    } else {
      var front := log[..|log| - 1];
      MovedOnly(before, front, ids, status);
      assert log[|log| - 1].named <= ids;
    }
  }

  lemma {:induction false} DisabledDone(log0: seq<Query>, log: seq<Query>, config: Config, ms: seq<Message>, quiet: bool)
    requires !config.ambientEnabled && Ids(ms) !! MovedTo(log0, Ignored) + MovedTo(log0, Received)
    requires log0 <= log && NamesOnly(log, |log0|, Ids(ms)) && MovedTo(log, Received) == MovedTo(log0, Received)
    requires quiet ==> MovedTo(log, Ignored) == MovedTo(log0, Ignored) + Ids(ms)
    ensures Done(log, config, Plan([], Undecided), ms, quiet)
  {
    var plan := Plan([], Undecided);
    assert forall m :: m in ms ==> Outcome(config, plan, m) == Ignored;
    assert Owed(config, plan, ms, Ignored) == Ids(ms);
    assert Owed(config, plan, ms, Received) == {};
  }

  // A message ignored since log0 that the policy does not drop was ignored by the verdict.
  lemma {:induction false} IgnoredByVerdict(log0: seq<Query>, log1: seq<Query>, log: seq<Query>, dropped: set<nat>, n: nat, id: nat)
    requires log0 <= log1 <= log && NamesOnly(log1, |log0|, dropped)
    requires id !in MovedTo(log0, Ignored) && id !in dropped && Moved(log, n, id, Ignored)
    ensures |log1| <= n
  {
    assert n < |log0| ==> Moved(log0, n, id, Ignored);
    assert forall k :: 0 <= k < |log1| ==> log1[k] == log[k];
    MovedAt(log0, id, Ignored);
  }

  // The writes of the selection and of the verdict together are those owed.
  lemma {:induction false} PlanDone(start: Table, log0: seq<Query>, log1: seq<Query>, log: seq<Query>, config: Config, plan: Plan, ms: seq<Message>, quiet: bool)
    requires config.ambientEnabled && Fetched(start, ms) && Ids(ms) !! MovedTo(log0, Ignored) + MovedTo(log0, Received)
    requires forall m :: m in plan.evaluated ==> m in ms && !PolicyIgnores(config, m)
    requires plan.verdict.Promote? ==> plan.verdict.trigger in Ids(plan.evaluated)
    requires log0 <= log1 <= log && NamesOnly(log1, |log0|, Ids(Filter(ms, Dropped(config))))
    requires MovedTo(log1, Received) == MovedTo(log0, Received)
    requires ByVerdict(log1, log, plan.evaluated, plan.verdict, quiet)
    requires quiet ==> MovedTo(log1, Ignored) == MovedTo(log0, Ignored) + Ids(Filter(ms, Dropped(config)))
    ensures Done(log, config, plan, ms, quiet)
  {
    OwedSplits(start, config, plan, ms);
    FilterMembers(ms, Dropped(config));
    var d, e := Ids(Filter(ms, Dropped(config))), DroppedBy(plan.evaluated, plan.verdict);
    MovedOnly(log0, log1, d, Ignored);
    assert d <= Ids(ms) && e <= Ids(ms) && PromotedBy(plan.verdict) <= Ids(ms);
    forall n: nat, id: nat | plan.verdict.Promote? && Moved(log, n, id, Ignored) && id in Ids(ms) - d
      ensures PromotedBefore(log, n, plan.verdict.trigger)
    {
      IgnoredByVerdict(log0, log1, log, d, n, id);
    }
  }

  // What carrying out a verdict writes, and that a promotion comes first.
  ghost predicate ByVerdict(log1: seq<Query>, log: seq<Query>, evaluated: seq<Message>, verdict: Verdict, quiet: bool) {
    && log1 <= log && NamesOnly(log, |log1|, Ids(evaluated))
    && MovedTo(log1, Received) <= MovedTo(log, Received) <= MovedTo(log1, Received) + PromotedBy(verdict)
    && MovedTo(log1, Ignored) <= MovedTo(log, Ignored) <= MovedTo(log1, Ignored) + DroppedBy(evaluated, verdict)
    && (verdict.Promote? ==>
          forall n: nat, id: nat :: |log1| <= n && Moved(log, n, id, Ignored) ==> PromotedBefore(log, n, verdict.trigger))
    && (quiet ==>
          && MovedTo(log, Received) == MovedTo(log1, Received) + PromotedBy(verdict)
          && MovedTo(log, Ignored) == MovedTo(log1, Ignored) + DroppedBy(evaluated, verdict))
  }

  // Dropping messages leaves the others of the batch untouched.
  lemma {:induction false} UndroppedApart(start: Table, ms: seq<Message>, config: Config, evaluated: seq<Message>, log0: seq<Query>, log: seq<Query>)
    requires Fetched(start, ms) && Ids(ms) !! MovedTo(log0, Ignored) + MovedTo(log0, Received)
    requires log0 <= log && NamesOnly(log, |log0|, Ids(Filter(ms, Dropped(config))))
    requires forall m :: m in evaluated ==> m in ms && !PolicyIgnores(config, m)
    ensures Fetched(start, evaluated) && Ids(evaluated) !! MovedTo(log, Ignored) + MovedTo(log, Received)
  {
    FilterMembers(ms, Dropped(config));
    MovedOnly(log0, log, Ids(Filter(ms, Dropped(config))), Ignored);
    MovedOnly(log0, log, Ids(Filter(ms, Dropped(config))), Received);
    assert Ids(evaluated) !! Ids(Filter(ms, Dropped(config)));
  }

  // A promotion that hit, then the others; or one that missed and nothing more.
  lemma {:induction false} PromotionFirst(log0: seq<Query>, log1: seq<Query>, log: seq<Query>, evaluated: seq<Message>, trigger: nat,
                                          done: bool, quiet: bool)
    requires trigger in Ids(evaluated) && log0 <= log1 <= log && |log1| == |log0| + 1 && log1[|log0|].named <= {trigger}
    requires NamesOnly(log, |log1|, Ids(evaluated) - {trigger}) && (!done ==> log == log1)
    requires done ==> Moved(log1, |log0|, trigger, Received)
    requires !done ==> log1[|log0|].to != Some(Ignored)
    requires MovedTo(log1, Received) == MovedTo(log0, Received) + if done then {trigger} else {}
    requires MovedTo(log, Received) == MovedTo(log1, Received) && MovedTo(log1, Ignored) == MovedTo(log0, Ignored)
    requires quiet ==> done && MovedTo(log, Ignored) == MovedTo(log1, Ignored) + (Ids(evaluated) - {trigger})
    ensures ByVerdict(log0, log, evaluated, Promote(trigger), quiet)
  {
    MovedOnly(log1, log, Ids(evaluated) - {trigger}, Ignored);
    forall n: nat, id: nat | |log0| <= n && Moved(log, n, id, Ignored)
      ensures PromotedBefore(log, n, trigger)
    {
      assert log[|log0|] == log1[|log0|];
      assert Moved(log, |log0|, trigger, Received);
    }
  }

  lemma {:induction false} VerdictTrigger(config: Config, judge: Option<Judge>, evaluated: seq<Message>, cutoff: int)
    ensures
      var verdict := VerdictOf(config, judge, evaluated, cutoff);
      verdict.Promote? ==> verdict.trigger in Ids(evaluated)
  {
    var verdict := VerdictOf(config, judge, evaluated, cutoff);
    if verdict.Promote? {
      TriggerIn(evaluated, Decide(config, judge, evaluated).value);
    }
  }

  function Conversations(ms: seq<Message>): set<nat> {
    set m | m in ms :: m.conversation
  }

  function Batch(ms: seq<Message>, conversation: nat): seq<Message> {
    Filter(ms, InConversation(conversation))
  }

  /** The batches by conversation, in the order the conversations first appear. */
  method GroupByConversation(observed: seq<Message>) returns (order: seq<nat>, byConversation: map<nat, seq<Message>>)
    ensures byConversation.Keys == Conversations(observed) == set c | c in order
    ensures forall i, j :: 0 <= i < j < |order| ==> order[i] != order[j]
    ensures forall c :: c in byConversation ==> byConversation[c] == Batch(observed, c)
  {
    order, byConversation := [], map[];
    for i := 0 to |observed|
      invariant byConversation.Keys == Conversations(observed[..i]) == set c | c in order
      invariant forall j, k :: 0 <= j < k < |order| ==> order[j] != order[k]
      invariant forall c :: c in byConversation ==> byConversation[c] == Batch(observed[..i], c)
    {
      var message := observed[i];
      var c := message.conversation;
      assert observed[..i + 1][..i] == observed[..i];
      assert Conversations(observed[..i + 1]) == Conversations(observed[..i]) + {c} by {
        assert observed[..i + 1] == observed[..i] + [message];
      }
      if c !in byConversation {
        FilterNone(observed[..i], InConversation(c));
        order := order + [c];
      }
      var batch := if c in byConversation then byConversation[c] else [];
      assert batch == Batch(observed[..i], c);
      byConversation := byConversation[c := batch + [message]];
    }
    assert observed[..|observed|] == observed;
  }

  // Writes elsewhere leave a finished conversation finished.
  lemma {:induction false} DoneStays(log: seq<Query>, log': seq<Query>, others: set<nat>, config: Config, plan: Plan, ms: seq<Message>, quiet: bool)
    requires Done(log, config, plan, ms, quiet)
    requires log <= log' && NamesOnly(log', |log|, others) && others !! Ids(ms)
    ensures Done(log', config, plan, ms, quiet)
  {
    MovedOnly(log, log', others, Ignored);
    MovedOnly(log, log', others, Received);
    assert MovedTo(log', Ignored) * Ids(ms) == MovedTo(log, Ignored) * Ids(ms);
    assert MovedTo(log', Received) * Ids(ms) == MovedTo(log, Received) * Ids(ms);
    forall n: nat, id: nat | plan.verdict.Promote? && Moved(log', n, id, Ignored) && id in Ids(ms) - Ids(Filter(ms, Dropped(config)))
      ensures PromotedBefore(log', n, plan.verdict.trigger)
    {
      assert n < |log| by {
        assert id in log'[n].named;
      }
      assert Moved(log, n, id, Ignored);
      var m: nat :| m < n && Moved(log, m, plan.verdict.trigger, Received);
      assert Moved(log', m, plan.verdict.trigger, Received);
    }
  }

  lemma {:induction false} BatchMembers(start: Table, observed: seq<Message>, conversation: nat)
    requires Fetched(start, observed)
    ensures Fetched(start, Batch(observed, conversation))
    ensures forall id :: id in Ids(Batch(observed, conversation)) <==> id in Ids(observed) && start[id].conversation == conversation
  {
    FilterMembers(observed, InConversation(conversation));
    forall id | id in Ids(observed) && start[id].conversation == conversation
      ensures id in Ids(Batch(observed, conversation))
    {
      var m :| m in observed && m.id == id;
      assert m in Batch(observed, conversation);
    }
  }

  /** At most one message of a conversation is promoted, whatever happens around the pass. */
  lemma {:induction false} AtMostOnePromoted(log: seq<Query>, config: Config, plan: Plan, ms: seq<Message>, quiet: bool)
    requires Done(log, config, plan, ms, quiet)
    ensures |MovedTo(log, Received) * Ids(ms)| <= 1
  {
    var trigger := if plan.verdict.Promote? then plan.verdict.trigger else 0;
    assert MovedTo(log, Received) * Ids(ms) <= {trigger};
    SubsetSize(MovedTo(log, Received) * Ids(ms), {trigger});
  }

  // What a pass starts from; quiet when nobody else touches the table.
  datatype Pass = Pass(
    start: Table,
    judge: Option<Judge>,
    cutoff: int,
    now: int,
    quiet: bool,
    observed: seq<Message>,
    configs: map<nat, Config>)

  ghost predicate Planned(p: Pass, c: nat, due: set<nat>, plan: Plan)
    requires c in p.configs
  {
    && PlanFor(p.configs[c], p.judge, p.cutoff, Batch(p.observed, c), due, plan)
    && (p.quiet ==> due == DueSenders(p.start, p.configs[c], c, Filter(Batch(p.observed, c), Kept(p.configs[c])), p.now))
  }

  ghost predicate HasPlan(p: Pass, c: nat, plan: Plan)
    requires c in p.configs
  {
    exists due :: Planned(p, c, due, plan)
  }

  // Conversation c has had its turn, by a plan that follows from its messages.
  ghost predicate Reached(p: Pass, log: seq<Query>, c: nat, plan: Plan) {
    c in p.configs && HasPlan(p, c, plan) && Done(log, p.configs[c], plan, Batch(p.observed, c), p.quiet)
  }

  // The conversations reached are finished and the others untouched.
  ghost predicate Progress(p: Pass, log: seq<Query>, plans: map<nat, Plan>) {
    && (forall id :: id in MovedTo(log, Ignored) + MovedTo(log, Received) ==>
          id in Ids(p.observed) && id in p.start && p.start[id].conversation in plans)
    && (forall c :: c in plans ==> Reached(p, log, c, plans[c]))
  }

  lemma {:induction false} UnreachedApart(p: Pass, log: seq<Query>, plans: map<nat, Plan>, c: nat)
    requires Fetched(p.start, p.observed) && c !in plans && Progress(p, log, plans)
    ensures Fetched(p.start, Batch(p.observed, c)) && Ids(Batch(p.observed, c)) !! MovedTo(log, Ignored) + MovedTo(log, Received)
    ensures forall id :: id in MovedTo(log, Ignored) + MovedTo(log, Received) && id in p.start ==> p.start[id].conversation != c
  {
    BatchMembers(p.start, p.observed, c);
  }

  lemma {:induction false} ReachedStays(p: Pass, log: seq<Query>, log': seq<Query>, c: nat, plan: Plan, c': nat)
    requires Fetched(p.start, p.observed) && c != c' && Reached(p, log, c, plan)
    requires log <= log' && NamesOnly(log', |log|, Ids(Batch(p.observed, c')))
    ensures Reached(p, log', c, plan)
  {
    BatchMembers(p.start, p.observed, c);
    BatchMembers(p.start, p.observed, c');
    DoneStays(log, log', Ids(Batch(p.observed, c')), p.configs[c], plan, Batch(p.observed, c), p.quiet);
  }

  lemma {:induction false} ProgressGrows(p: Pass, log: seq<Query>, log': seq<Query>, plans: map<nat, Plan>, c: nat, plan: Plan)
    requires Fetched(p.start, p.observed) && c !in plans && Progress(p, log, plans)
    requires log <= log' && NamesOnly(log', |log|, Ids(Batch(p.observed, c)))
    requires Reached(p, log', c, plan)
    ensures Progress(p, log', plans[c := plan])
  {
    BatchMembers(p.start, p.observed, c);
    MovedOnly(log, log', Ids(Batch(p.observed, c)), Ignored);
    MovedOnly(log, log', Ids(Batch(p.observed, c)), Received);
    forall c' | c' in plans
      ensures Reached(p, log', c', plans[c'])
    {
      ReachedStays(p, log, log', c', plans[c'], c);
    }
  }

  /**
   Conservation: after an undisturbed and finished pass, every fetched row is observed, ignored or
   received as its plan says, with at most one received per conversation, and no other row moved.
   */
  lemma {:induction false} Conservation(p: Pass, log: seq<Query>, plans: map<nat, Plan>)
    requires Fetched(p.start, p.observed) && Progress(p, log, plans) && p.quiet
    requires plans.Keys == Conversations(p.observed) && plans.Keys <= p.configs.Keys
    ensures Conserved(p, Marked(p.start, MovedTo(log, Ignored), MovedTo(log, Received), p.now), plans)
  {
    var rows := Marked(p.start, MovedTo(log, Ignored), MovedTo(log, Received), p.now);
    forall m | m in p.observed
      ensures m.id in rows && rows[m.id].status == Outcome(p.configs[m.conversation], plans[m.conversation], m)
    {
      RowConserved(p, log, plans, m);
    }
    OneReceived(p, rows, plans);
  }

  ghost predicate AsOwed(p: Pass, rows: Table, plans: map<nat, Plan>) {
    forall m :: m in p.observed ==>
      && m.id in rows && m.conversation in plans && m.conversation in p.configs
      && rows[m.id].status == Outcome(p.configs[m.conversation], plans[m.conversation], m)
  }

  ghost predicate OnePerConversation(p: Pass, rows: Table) {
    forall m, m' :: m in p.observed && m' in p.observed && m.conversation == m'.conversation
      && m.id in rows && m'.id in rows && rows[m.id].status.Received? && rows[m'.id].status.Received?
      ==> m == m'
  }

  ghost predicate Conserved(p: Pass, rows: Table, plans: map<nat, Plan>) {
    && AsOwed(p, rows, plans) && OnePerConversation(p, rows)
    && rows.Keys == p.start.Keys && forall id :: id in rows && id !in Ids(p.observed) ==> rows[id] == p.start[id]
  }

  lemma {:induction false} OneReceived(p: Pass, rows: Table, plans: map<nat, Plan>)
    requires Fetched(p.start, p.observed) && AsOwed(p, rows, plans)
    ensures OnePerConversation(p, rows)
  {
    forall m, m' | m in p.observed && m' in p.observed && m.conversation == m'.conversation
      && rows[m.id].status.Received? && rows[m'.id].status.Received?
      ensures m == m'
    {
      assert plans[m.conversation].verdict == Promote(m.id) == Promote(m'.id);
    }
  }

  lemma {:induction false} RowConserved(p: Pass, log: seq<Query>, plans: map<nat, Plan>, m: Message)
    requires Fetched(p.start, p.observed) && Progress(p, log, plans) && p.quiet
    requires m in p.observed && m.conversation in plans && m.conversation in p.configs
    ensures Marked(p.start, MovedTo(log, Ignored), MovedTo(log, Received), p.now)[m.id].status
            == Outcome(p.configs[m.conversation], plans[m.conversation], m)
  {
    var c := m.conversation;
    BatchMembers(p.start, p.observed, c);
    FilterIn(p.observed, InConversation(c), m);
    assert Reached(p, log, c, plans[c]);
    OwedByStatus(p.start, p.configs[c], plans[c], Batch(p.observed, c), m);
  }

  lemma {:induction false} OwedByStatus(start: Table, config: Config, plan: Plan, ms: seq<Message>, m: Message)
    requires Fetched(start, ms) && m in ms
    ensures forall status :: m.id in Owed(config, plan, ms, status) <==> Outcome(config, plan, m) == status
  {
  }

  // Nothing but reads was added.
  ghost predicate Reads(log: seq<Query>, log': seq<Query>) {
    && log <= log' && NamesOnly(log', |log|, {})
    && MovedTo(log', Ignored) == MovedTo(log, Ignored) && MovedTo(log', Received) == MovedTo(log, Received)
  }

  ghost predicate Threw(plans: map<nat, Plan>) {
    exists c :: c in plans && plans[c].verdict.Thrown?
  }

  ghost predicate Rejected(world: World, from: nat, to: nat) {
    exists n :: from <= n < to && world.rejects(n)
  }

  // The table is what the world and the logged guarded updates have made of it.
  ghost predicate History(start: Table, world: World, now: int, log: seq<Query>, rows: Table) {
    && rows == TableAfter(start, log) && Happened(start, world, now, log)
    && MovedTo(log, Ignored) !! MovedTo(log, Received)
    && (Quiet(world) ==> rows == Marked(start, MovedTo(log, Ignored), MovedTo(log, Received), now))
  }

  // A guarded update as the next query.
  function GuardedUpdate(world: World, now: int, n: nat, rows: Table, ids: set<nat>, to: Status): Query {
    var seen := world.meanwhile(n, rows);
    var query := Query(seen, ids, Some(to), seen);
    query.(left := Written(seen, Hits(query), Some(to), now))
  }

  lemma {:induction false} QuietIgnores(start: Table, ignored: set<nat>, promoted: set<nat>, now: int, ms: seq<Message>, q: Query)
    requires Fetched(start, ms) && Ids(ms) !! promoted && q.named == Ids(ms) && q.to == Some(Ignored)
    requires q.seen == Marked(start, ignored, promoted, now)
    ensures ignored + Hits(q) == ignored + Ids(ms)
    ensures Written(q.seen, Hits(q), q.to, now) == Marked(start, ignored + Hits(q), promoted, now)
  {
    forall id | id in Ids(ms) && id !in ignored
      ensures id in Hits(q)
    {
      var m :| m in ms && m.id == id;
      assert q.seen[id] == m;
    }
  }

  lemma {:induction false} IgnoreLogged(start: Table, world: World, now: int, log: seq<Query>, rows: Table, ms: seq<Message>)
    requires History(start, world, now, log, rows) && !world.rejects(|log|)
    requires Fetched(start, ms) && Ids(ms) !! MovedTo(log, Received)
    ensures
      var q := GuardedUpdate(world, now, |log|, rows, Ids(ms), Ignored);
      && History(start, world, now, log + [q], q.left)
      && MovedTo(log + [q], Received) == MovedTo(log, Received)
      && MovedTo(log + [q], Ignored) == MovedTo(log, Ignored) + Hits(q) && Hits(q) <= Ids(ms)
      && (Quiet(world) ==> MovedTo(log + [q], Ignored) == MovedTo(log, Ignored) + Ids(ms))
  {
    var q := GuardedUpdate(world, now, |log|, rows, Ids(ms), Ignored);
    HistoryGrows(start, world, now, log, q);
    if Quiet(world) {
      QuietIgnores(start, MovedTo(log, Ignored), MovedTo(log, Received), now, ms, q);
    }
  }

  lemma {:induction false} PromoteLogged(start: Table, world: World, now: int, log: seq<Query>, rows: Table, trigger: Message)
    requires History(start, world, now, log, rows) && !world.rejects(|log|)
    requires trigger.id in start && start[trigger.id] == trigger && trigger.status.Observed?
    requires trigger.id !in MovedTo(log, Ignored) + MovedTo(log, Received)
    ensures
      var q := GuardedUpdate(world, now, |log|, rows, {trigger.id}, Received);
      && History(start, world, now, log + [q], q.left)
      && MovedTo(log + [q], Ignored) == MovedTo(log, Ignored) && MovedTo(log + [q], Received) == MovedTo(log, Received) + Hits(q)
      && Hits(q) == (if trigger.id in q.seen && q.seen[trigger.id].status.Observed? then {trigger.id} else {})
      && (Quiet(world) ==> Hits(q) == {trigger.id})
  {
    var q := GuardedUpdate(world, now, |log|, rows, {trigger.id}, Received);
    assert Hits(q) == if trigger.id in q.seen && q.seen[trigger.id].status.Observed? then {trigger.id} else {};
    HistoryGrows(start, world, now, log, q);
    if Quiet(world) {
      var ignored, promoted := MovedTo(log, Ignored), MovedTo(log, Received);
      assert q.seen[trigger.id] == trigger;
      assert q.left == Marked(start, ignored, promoted + {trigger.id}, now);
    }
  }

  lemma {:induction false} ReadLogged(start: Table, world: World, now: int, log: seq<Query>, rows: Table)
    requires History(start, world, now, log, rows)
    ensures
      var seen := world.meanwhile(|log|, rows);
      && History(start, world, now, log + [Query(seen, {}, None, seen)], seen)
      && Reads(log, log + [Query(seen, {}, None, seen)])
  {
    var seen := world.meanwhile(|log|, rows);
    HistoryGrows(start, world, now, log, Query(seen, {}, None, seen));
  }

  class AmbientEvaluator {
    var rows: Table
    const world: World
    const judge: Option<Judge>
    const now: int
    const cutoff: int
    ghost const start: Table
    var awaits: nat
    ghost var log: seq<Query>

    ghost predicate Valid()
      reads this
    {
      awaits == |log| && History(start, world, now, log, rows)
    }

    constructor (rows: Table, world: World, judge: Option<Judge>, now: int, debounceMs: nat)
      ensures Valid() && this.rows == rows == start && this.world == world && this.judge == judge
      ensures this.now == now && cutoff == now - debounceMs && log == []
    {
      this.rows, start, this.world, this.judge := rows, rows, world, judge;
      this.now, cutoff := now, now - debounceMs;
      awaits, log := 0, [];
    }

    // An answer arrives, and nothing is written; the table may have changed by then.
    method Await()
      requires Valid()
      modifies this`rows, this`awaits, this`log
      ensures Valid() && log == old(log) + [Query(rows, {}, None, rows)]
      ensures Reads(old(log), log)
    {
      ReadLogged(start, world, now, log, rows);
      rows := world.meanwhile(awaits, rows);
      log := log + [Query(rows, {}, None, rows)];
      awaits := awaits + 1;
    }

    /** The guarded updateMany; false when it is rejected. */
    method MarkAmbientIgnored(messages: seq<Message>) returns (ok: bool)
      requires Valid() && Fetched(start, messages) && Ids(messages) !! MovedTo(log, Received)
      modifies this
      ensures Valid() && old(log) <= log && NamesOnly(log, |old(log)|, Ids(messages))
      ensures messages == [] ==> ok && log == old(log) && rows == old(rows)
      ensures messages != [] ==>
        && |log| == |old(log)| + 1 && ok == !world.rejects(|old(log)|)
        && (ok ==> log[|old(log)|].named == Ids(messages) && log[|old(log)|].to == Some(Ignored))
      ensures MovedTo(log, Received) == MovedTo(old(log), Received)
      ensures MovedTo(old(log), Ignored) <= MovedTo(log, Ignored) <= MovedTo(old(log), Ignored) + Ids(messages)
      ensures Quiet(world) ==> ok && MovedTo(log, Ignored) == MovedTo(old(log), Ignored) + Ids(messages)
    {
      if |messages| == 0 {
        return true;
      }
      ok := !world.rejects(awaits);
      if !ok {
        Await();
        return;
      }
      IgnoreLogged(start, world, now, log, rows, messages);
      log := log + [GuardedUpdate(world, now, |log|, rows, Ids(messages), Ignored)];
      var seen := world.meanwhile(awaits, rows);
      var hits := set id | id in Ids(messages) && id in seen && seen[id].status.Observed?;
      rows := map id | id in seen ::
        if id in hits then seen[id].(status := Ignored, judgedAt := Some(now)) else seen[id];
      awaits := awaits + 1;
    }

    /** The guarded promotion; `done` when it changed the row, ok unless it is rejected. */
    method PromoteAmbientTrigger(trigger: Message) returns (ok: bool, done: bool)
      requires Valid() && Fetched(start, [trigger]) && trigger.id !in MovedTo(log, Ignored) + MovedTo(log, Received)
      modifies this
      ensures Valid() && old(log) <= log && |log| == |old(log)| + 1 && ok == !world.rejects(|old(log)|)
      ensures
        var query := log[|old(log)|];
        && query.named <= {trigger.id}
        && (ok ==> query.named == {trigger.id} && query.to == Some(Received))
        && query.to != Some(Ignored)
        && (done <==> ok && trigger.id in query.seen && query.seen[trigger.id].status.Observed?)
      ensures done ==> Moved(log, |old(log)|, trigger.id, Received)
      ensures MovedTo(log, Ignored) == MovedTo(old(log), Ignored)
      ensures MovedTo(log, Received) == MovedTo(old(log), Received) + if done then {trigger.id} else {}
      ensures Quiet(world) ==> done
    {
      assert trigger in [trigger];
      ok := !world.rejects(awaits);
      if !ok {
        Await();
        return false, false;
      }
      PromoteLogged(start, world, now, log, rows, trigger);
      log := log + [GuardedUpdate(world, now, |log|, rows, {trigger.id}, Received)];
      var seen := world.meanwhile(awaits, rows);
      done := trigger.id in seen && seen[trigger.id].status.Observed?;
      rows := if done then seen[trigger.id := seen[trigger.id].(status := Received, judgedAt := Some(now))] else seen;
      awaits := awaits + 1;
    }

    method DueRollupMessages(config: Config, conversation: nat, messages: seq<Message>)
      returns (ok: bool, dueMessages: seq<Message>, ghost due: set<nat>)
      requires Valid()
      requires forall id, m :: id in MovedTo(log, Ignored) + MovedTo(log, Received) && id in start && m in messages ==>
                 start[id].conversation != conversation || start[id].sender != m.sender
      modifies this`rows, this`awaits, this`log
      ensures Valid() && Reads(old(log), log)
      ensures !ok ==> Rejected(world, |old(log)|, |log|)
      ensures ok ==> dueMessages == Filter(messages, SentBy(due))
      ensures Quiet(world) ==> ok && due == DueSenders(start, config, conversation, messages, now)
    {
      var dueSenders: set<nat> := {};
      var senders := set m | m in messages :: m.sender;
      var rest := senders;
      due, dueMessages := {}, [];
      while rest != {}
        invariant Valid() && rest <= senders && Reads(old(log), log)
        invariant Quiet(world) ==> dueSenders == set x | x in senders - rest && RollupDue(start, config, conversation, x, now)
      {
        var sender :| sender in rest;
        rest := rest - {sender};
        var rejected := world.rejects(awaits);
        Await();
        if rejected {
          assert world.rejects(|log| - 1);
          return false, dueMessages, due;
        }
        RollupDueUnmoved(start, MovedTo(log, Ignored), MovedTo(log, Received), config, conversation, sender, now);
        if RollupDue(rows, config, conversation, sender, now) {
          dueSenders := dueSenders + {sender};
        }
      }
      due := dueSenders;
      dueMessages := Filter(messages, SentBy(dueSenders));
      ok := true;
    }

    /** From the decision on one conversation's evaluated messages to its writes. */
    method ActOn(config: Config, evaluated: seq<Message>) returns (ok: bool, verdict: Verdict)
      requires Valid() && Fetched(start, evaluated) && Ids(evaluated) !! MovedTo(log, Ignored) + MovedTo(log, Received)
      requires evaluated != [] && evaluated[|evaluated| - 1].createdAt <= cutoff
      modifies this
      ensures Valid() && verdict == VerdictOf(config, judge, evaluated, cutoff)
      ensures ByVerdict(old(log), log, evaluated, verdict, Quiet(world))
      ensures !ok ==> verdict.Thrown? || Rejected(world, |old(log)|, |log|)
      ensures ok ==> !verdict.Thrown?
      ensures Warranted(config, judge, cutoff, evaluated, verdict)
    {
      VerdictWarranted(config, judge, cutoff, evaluated);
      var judged := Window(evaluated);
      var actionable := LastActionable(config, judged);
      var decision: Decision;
      if actionable.Some? {
        decision := Decision(true, Some(actionable.value.event));
      } else if judge.Some? {
        var answer := judge.value(evaluated[|evaluated| - 1].conversation, judged);
        Await();
        if answer.None? {
          return false, Thrown;
        }
        decision := answer.value;
      } else {
        decision := Decision(false, None);
      }
      if !decision.act {
        ok := MarkAmbientIgnored(evaluated);
        return ok, Drop;
      }
      ok, verdict := PromoteAndIgnore(evaluated, decision);
    }

    method PromoteAndIgnore(evaluated: seq<Message>, decision: Decision) returns (ok: bool, verdict: Verdict)
      requires Valid() && Fetched(start, evaluated) && Ids(evaluated) !! MovedTo(log, Ignored) + MovedTo(log, Received)
      requires evaluated != []
      modifies this
      ensures Valid() && verdict == Promote(TriggerOf(evaluated, decision).id)
      ensures ByVerdict(old(log), log, evaluated, verdict, Quiet(world))
      ensures !ok ==> Rejected(world, |old(log)|, |log|)
    {
      var trigger := TriggerOf(evaluated, decision);
      TriggerIn(evaluated, decision);
      verdict := Promote(trigger.id);
      var done;
      ok, done := PromoteAmbientTrigger(trigger);
      ghost var promoted := log;
      if done {
        var others := Filter(evaluated, NotId(trigger.id));
        FilterMembers(evaluated, NotId(trigger.id));
        assert Ids(others) == Ids(evaluated) - {trigger.id};
        ok := MarkAmbientIgnored(others);
      }
      PromotionFirst(old(log), promoted, log, evaluated, trigger.id, done, Quiet(world));
    }

    // Drops what the policy ignores and picks what is to be judged.
    method Select(conversation: nat, ms: seq<Message>, config: Config) returns (ok: bool, evaluated: seq<Message>, ghost due: set<nat>)
      requires Valid() && Fetched(start, ms) && Ids(ms) !! MovedTo(log, Ignored) + MovedTo(log, Received)
      requires forall id :: id in MovedTo(log, Ignored) + MovedTo(log, Received) && id in start ==> start[id].conversation != conversation
      modifies this
      ensures Valid() && old(log) <= log && NamesOnly(log, |old(log)|, Ids(Filter(ms, Dropped(config))))
      ensures !ok ==> Rejected(world, |old(log)|, |log|)
      ensures ok ==> evaluated == Evaluated(config, ms, due)
      ensures MovedTo(log, Received) == MovedTo(old(log), Received)
      ensures Quiet(world) ==>
        && ok && due == DueSenders(start, config, conversation, Filter(ms, Kept(config)), now)
        && MovedTo(log, Ignored) == MovedTo(old(log), Ignored) + Ids(Filter(ms, Dropped(config)))
    {
      evaluated := Filter(ms, Kept(config));
      due := DueSenders(start, config, conversation, evaluated, now);
      var dropped := Filter(ms, Dropped(config));
      FilterMembers(ms, Dropped(config));
      ok := MarkAmbientIgnored(dropped);
      if ok && |evaluated| > 0 && !HasImmediate(config, evaluated) {
        RollupSendersKept(start, config, ms);
        ok, evaluated, due := DueRollupMessages(config, conversation, evaluated);
      }
    }

    method JudgeAndAct(config: Config, evaluated: seq<Message>) returns (ok: bool)
      requires Valid() && Fetched(start, evaluated) && Ids(evaluated) !! MovedTo(log, Ignored) + MovedTo(log, Received)
      modifies this
      ensures Valid() && ByVerdict(old(log), log, evaluated, VerdictOf(config, judge, evaluated, cutoff), Quiet(world))
      ensures !ok ==> VerdictOf(config, judge, evaluated, cutoff).Thrown? || Rejected(world, |old(log)|, |log|)
    {
      ok := true;
      if |evaluated| > 0 && evaluated[|evaluated| - 1].createdAt <= cutoff {
        var verdict;
        ok, verdict := ActOn(config, evaluated);
      }
    }

    /** One conversation's turn; false when it ends in an exception. */
    method EvaluateConversation(conversation: nat, ms: seq<Message>, config: Config) returns (ok: bool, ghost plan: Plan, ghost due: set<nat>)
      requires Valid() && Fetched(start, ms) && Ids(ms) !! MovedTo(log, Ignored) + MovedTo(log, Received)
      requires forall id :: id in MovedTo(log, Ignored) + MovedTo(log, Received) && id in start ==> start[id].conversation != conversation
      modifies this
      ensures Valid() && PlanFor(config, judge, cutoff, ms, due, plan)
      ensures Quiet(world) ==> due == DueSenders(start, config, conversation, Filter(ms, Kept(config)), now)
      ensures old(log) <= log && NamesOnly(log, |old(log)|, Ids(ms))
      ensures Done(log, config, plan, ms, Quiet(world))
      ensures config.ambientEnabled ==> Warranted(config, judge, cutoff, plan.evaluated, plan.verdict)
      ensures !ok ==> plan.verdict.Thrown? || Rejected(world, |old(log)|, |log|)
    {
      if !config.ambientEnabled {
        due := DueSenders(start, config, conversation, Filter(ms, Kept(config)), now);
        ok := MarkAmbientIgnored(ms);
        plan := Plan([], Undecided);
        DisabledDone(old(log), log, config, ms, Quiet(world));
        return;
      }
      var evaluated;
      ok, evaluated, due := Select(conversation, ms, config);
      FilterMembers(ms, Dropped(config));
      EvaluatedKept(config, ms, due);
      ghost var selected := log;
      ghost var chosen := Evaluated(config, ms, due);
      plan := Plan(chosen, VerdictOf(config, judge, chosen, cutoff));
      VerdictTrigger(config, judge, chosen, cutoff);
      VerdictWarranted(config, judge, cutoff, chosen);
      if ok {
        UndroppedApart(start, ms, config, evaluated, old(log), log);
        ok := JudgeAndAct(config, evaluated);
      }
      PlanDone(start, old(log), selected, log, config, plan, ms, Quiet(world));
    }

    /**
     The pass over the fetched rows, whatever others do to the table and whichever queries are
     rejected. The log is the pass's own history of the table, so every write moved an observed row
     to ignored or received; each conversation reached ends Done by a plan that follows from its
     messages; and only a rejected query or a throwing judge ends the pass early.
     */
    method EvaluateAmbient(observed: seq<Message>, configs: map<nat, Config>) returns (finished: bool, ghost plans: map<nat, Plan>)
      requires Valid() && log == [] && Fetched(start, observed) && |observed| <= BATCH_SIZE
      requires Conversations(observed) <= configs.Keys
      modifies this
      ensures Valid() && plans.Keys <= Conversations(observed)
      ensures Progress(Scope(observed, configs), log, plans)
      ensures finished ==> plans.Keys == Conversations(observed)
      ensures !finished ==> Rejected(world, 0, |log|) || Threw(plans)
    {
      var order, byConversation := GroupByConversation(observed);
      finished, plans := TakeTurns(observed, configs, order, byConversation);
    }

    method TakeTurns(observed: seq<Message>, configs: map<nat, Config>, order: seq<nat>, byConversation: map<nat, seq<Message>>)
      returns (finished: bool, ghost plans: map<nat, Plan>)
      requires Valid() && Fetched(start, observed) && log == []
      requires forall j :: 0 <= j < |order| ==>
                 order[j] in configs && order[j] in byConversation && byConversation[order[j]] == Batch(observed, order[j])
      requires forall j, k :: 0 <= j < k < |order| ==> order[j] != order[k]
      modifies this
      ensures Valid() && Progress(Scope(observed, configs), log, plans)
      ensures forall c :: c in plans ==> c in order
      ensures finished ==> forall c :: c in order ==> c in plans
      ensures !finished ==> Rejected(world, 0, |log|) || Threw(plans)
    {
      plans := map[];
      for i := 0 to |order|
        invariant Valid()
        invariant forall c :: c in plans <==> c in order[..i]
        invariant Progress(Scope(observed, configs), log, plans)
      {
        var ok;
        ghost var plan;
        ok, plan := Turn(observed, configs, plans, order[i], byConversation[order[i]]);
        plans := plans[order[i] := plan];
        if !ok {
          assert plan == plans[order[i]];
          return false, plans;
        }
      }
      finished := true;
    }

    method Turn(observed: seq<Message>, configs: map<nat, Config>, ghost plans: map<nat, Plan>, c: nat, messages: seq<Message>)
      returns (ok: bool, ghost plan: Plan)
      requires Valid() && Fetched(start, observed) && c in configs && c !in plans && messages == Batch(observed, c)
      requires Progress(Scope(observed, configs), log, plans)
      modifies this
      ensures Valid() && Progress(Scope(observed, configs), log, plans[c := plan])
      ensures !ok ==> plan.verdict.Thrown? || Rejected(world, 0, |log|)
    {
      ghost var scope := Scope(observed, configs);
      UnreachedApart(scope, log, plans, c);
      ghost var due;
      ok, plan, due := EvaluateConversation(c, messages, configs[c]);
      assert Planned(scope, c, due, plan);
      ProgressGrows(scope, old(log), log, plans, c, plan);
    }

    ghost function Scope(observed: seq<Message>, configs: map<nat, Config>): Pass {
      Pass(start, judge, cutoff, now, Quiet(world), observed, configs)
    }
  }
}
