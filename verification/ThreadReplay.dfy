/**
 Idempotent sends: a send with a client nonce commits a message, an event and run rows in one
 transaction, and a repeat with the nonce rebuilds the first answer from those rows, whatever
 has been appended to the thread since.
 */
module ThreadReplay {
  import opened Common
  import D = ThreadDispatch

  datatype Message = Message(id: nat, seqNo: nat, nonce: string, run: Option<nat>)

  // A `thread.message.created` event; runIds is null for the direct branch's steering event.
  datatype Event = Event(message: nat, runIds: Option<seq<nat>>)

  datatype RunRow = RunRow(id: nat, task: nat, source: Option<nat>)

  // Each table in creation order; run rows are keyed by id.
  datatype Db = Db(messages: seq<Message>, events: seq<Event>, runs: seq<RunRow>, nextRun: nat)

  datatype Answer = Answer(task: nat, run: nat, seqNo: nat, runIds: seq<nat>)

  datatype Error = NoRun | DuplicateNonce

  function FindNonce(messages: seq<Message>, nonce: string): Option<Message> {
    if messages == [] then None
    else if messages[0].nonce == nonce then Some(messages[0])
    else FindNonce(messages[1..], nonce)
  }

  function FindRun(runs: seq<RunRow>, id: nat): Option<RunRow> {
    if runs == [] then None
    else if runs[0].id == id then Some(runs[0])
    else FindRun(runs[1..], id)
  }

  // sourceRuns, in creation order
  function SourceRuns(runs: seq<RunRow>, message: nat): seq<RunRow> {
    if runs == [] then []
    else (if runs[0].source == Some(message) then [runs[0]] else []) + SourceRuns(runs[1..], message)
  }

  // The newest event naming the message.
  function ReceiptEvent(events: seq<Event>, message: nat): Option<Event> {
    if events == [] then None
    else
      var last := events[|events| - 1];
      if last.message == message then Some(last) else ReceiptEvent(events[..|events| - 1], message)
  }

  // receiptRunIds.flatMap(...)
  function Present(runs: seq<RunRow>, ids: seq<nat>): seq<RunRow> {
    if ids == [] then []
    else
      var found := FindRun(runs, ids[0]);
      (if found.Some? then [found.value] else []) + Present(runs, ids[1..])
  }

  function Ids(runs: seq<RunRow>): seq<nat> {
    seq(|runs|, i requires 0 <= i < |runs| => runs[i].id)
  }

  function SendResult(message: Message, runs: seq<RunRow>): Result<Answer, Error> {
    if runs == [] then Err(NoRun) else Ok(Answer(runs[0].task, runs[0].id, message.seqNo, Ids(runs)))
  }

  function ReplayRuns(db: Db, message: Message): seq<RunRow> {
    var receipt := ReceiptEvent(db.events, message.id);
    var ids := if receipt.Some? && receipt.value.runIds.Some? then receipt.value.runIds.value else [];
    var ordered := Present(db.runs, ids);
    var source := SourceRuns(db.runs, message.id);
    var linked :=
      if source != [] then Some(source[0])
      else if message.run.Some? then FindRun(db.runs, message.run.value)
      else None;
    if ordered != [] then ordered
    else if source != [] then source
    else if linked.Some? then [linked.value]
    else []
  }

  // replayExistingSend
  function Replay(db: Db, nonce: string): Option<Answer> {
    var message := FindNonce(db.messages, nonce);
    if message.None? then None
    else
      var result := SendResult(message.value, ReplayRuns(db, message.value));
      if result.Ok? then Some(result.value) else None
  }

  // ---------------------------------------------------------------- the first send

  // Ids count up, so the message and run rows of a send are new to every table.
  ghost predicate WellFormed(db: Db) {
    && (forall i :: 0 <= i < |db.messages| ==> db.messages[i].id == i)
    && (forall e :: e in db.events ==> e.message < |db.messages|)
    && (forall run :: run in db.runs ==> run.id < db.nextRun && (run.source.Some? ==> run.source.value < |db.messages|))
  }

  // The runs a choice names exist.
  ghost predicate Known(db: Db, choice: D.Choice) {
    match choice
    case Answer(runs) => forall run :: run in runs ==> FindRun(db.runs, run.id).Some?
    case Steer(run, _) => FindRun(db.runs, run.id).Some?
    case Create => true
  }

  function Named(choice: D.Choice): seq<nat> {
    match choice
    case Answer(runs) => seq(|runs|, i requires 0 <= i < |runs| => runs[i].id)
    case Steer(run, _) => [run.id]
    case Create => []
  }

  // The run rows inserted, numbered from `next`.
  function Created(choices: seq<D.Choice>, message: nat, next: nat): seq<RunRow> {
    if choices == [] then []
    else if choices[0].Create? then [RunRow(next, next, Some(message))] + Created(choices[1..], message, next + 1)
    else Created(choices[1..], message, next)
  }

  // The ids of the runs the send answers with, in target order.
  function AnswerIds(choices: seq<D.Choice>, next: nat): seq<nat> {
    if choices == [] then []
    else if choices[0].Create? then [next] + AnswerIds(choices[1..], next + 1)
    else Named(choices[0]) + AnswerIds(choices[1..], next)
  }

  // A direct send makes one choice, and its event lists no runs when it steers.
  predicate Listed(group: bool, choices: seq<D.Choice>) {
    group || |choices| != 1 || !choices[0].Steer?
  }

  function Commit(db: Db, nonce: string, group: bool, choices: seq<D.Choice>): (Db, Result<Answer, Error>) {
    var id := |db.messages|;
    var runs := db.runs + Created(choices, id, db.nextRun);
    var ids := AnswerIds(choices, db.nextRun);
    if ids == [] then (db, Err(NoRun))
    else
      var message := Message(id, id, nonce, Some(ids[0]));
      var event := Event(id, if Listed(group, choices) then Some(ids) else None);
      (Db(db.messages + [message], db.events + [event], runs, db.nextRun + |choices|), SendResult(message, Present(runs, ids)))
  }

  // sendThreadMessage with a nonce; the unique index refuses a second message with it
  function Send(db: Db, nonce: string, group: bool, choices: seq<D.Choice>): (Db, Result<Answer, Error>) {
    var existing := Replay(db, nonce);
    if existing.Some? then (db, Ok(existing.value))
    else if FindNonce(db.messages, nonce).Some? then (db, Err(DuplicateNonce))
    else Commit(db, nonce, group, choices)
  }

  // ---------------------------------------------------------------- what may happen afterwards

  predicate Distinct(runs: seq<RunRow>) {
    forall i, j :: 0 <= i < j < |runs| ==> runs[i].id != runs[j].id
  }

  // Messages and events are appended, run rows come and go, no row changes its task or source.
  ghost predicate Later(db: Db, db': Db) {
    && db.messages <= db'.messages
    && db.events <= db'.events
    && (forall k :: |db.events| <= k < |db'.events| ==> |db.messages| <= db'.events[k].message)
    && Distinct(db'.runs)
    && (forall id :: FindRun(db.runs, id).Some? && FindRun(db'.runs, id).Some? ==> FindRun(db'.runs, id) == FindRun(db.runs, id))
  }

  ghost predicate Remain(runs: seq<RunRow>, ids: seq<nat>) {
    forall id :: id in ids ==> FindRun(runs, id).Some?
  }

  // ---------------------------------------------------------------- lookups

  lemma {:induction false} FindNonceAppend(messages: seq<Message>, more: seq<Message>, nonce: string)
    ensures FindNonce(messages + more, nonce) ==
            if FindNonce(messages, nonce).Some? then FindNonce(messages, nonce) else FindNonce(more, nonce)
  {
    if messages == [] {
      assert messages + more == more;
    } else {
      assert (messages + more)[1..] == messages[1..] + more;
      FindNonceAppend(messages[1..], more, nonce);
    }
  }

  lemma {:induction false} FindRunAppend(runs: seq<RunRow>, more: seq<RunRow>, id: nat)
    ensures FindRun(runs + more, id) == if FindRun(runs, id).Some? then FindRun(runs, id) else FindRun(more, id)
  {
    if runs == [] {
      assert runs + more == more;
    } else {
      assert (runs + more)[1..] == runs[1..] + more;
      FindRunAppend(runs[1..], more, id);
    }
  }

  lemma {:induction false} FindRunIs(runs: seq<RunRow>, id: nat)
    ensures FindRun(runs, id).Some? ==> FindRun(runs, id).value in runs && FindRun(runs, id).value.id == id
    ensures FindRun(runs, id).None? ==> forall run :: run in runs ==> run.id != id
  {
    if runs != [] {
      assert runs == [runs[0]] + runs[1..];
      FindRunIs(runs[1..], id);
    }
  }

  lemma {:induction false} FindRunUnique(runs: seq<RunRow>, run: RunRow)
    requires Distinct(runs) && run in runs
    ensures FindRun(runs, run.id) == Some(run)
  {
    FindRunIs(runs, run.id);
    var i :| 0 <= i < |runs| && runs[i] == run;
    var j :| 0 <= j < |runs| && runs[j] == FindRun(runs, run.id).value;
    assert i == j;
  }

  lemma {:induction false} SourceRunsIs(runs: seq<RunRow>, message: nat)
    ensures forall run :: run in SourceRuns(runs, message) ==> run in runs && run.source == Some(message)
  {
    if runs != [] {
      SourceRunsIs(runs[1..], message);
    }
  }

  lemma {:induction false} ReceiptSkips(events: seq<Event>, more: seq<Event>, message: nat)
    requires forall e :: e in more ==> e.message != message
    ensures ReceiptEvent(events + more, message) == ReceiptEvent(events, message)
  {
    if more == [] {
      assert events + more == events;
    } else {
      assert (events + more)[..|events + more| - 1] == events + more[..|more| - 1];
      ReceiptSkips(events, more[..|more| - 1], message);
    }
  }

  lemma {:induction false} PresentAll(runs: seq<RunRow>, ids: seq<nat>)
    ensures |Present(runs, ids)| <= |ids|
    ensures |Present(runs, ids)| == |ids| <==> Remain(runs, ids)
    ensures Remain(runs, ids) ==> Ids(Present(runs, ids)) == ids
    ensures forall run :: run in Present(runs, ids) ==> FindRun(runs, run.id) == Some(run)
  {
    if ids != [] {
      assert ids == [ids[0]] + ids[1..];
      PresentAll(runs, ids[1..]);
      FindRunIs(runs, ids[0]);
      if Remain(runs, ids) {
        assert ids[0] in ids;
        assert forall id :: id in ids[1..] ==> id in ids;
      }
    }
  }

  lemma {:induction false} PresentSame(runs: seq<RunRow>, runs': seq<RunRow>, ids: seq<nat>)
    requires forall id :: id in ids ==> FindRun(runs', id) == FindRun(runs, id)
    ensures Present(runs', ids) == Present(runs, ids)
  {
    if ids != [] {
      assert ids == [ids[0]] + ids[1..];
      PresentSame(runs, runs', ids[1..]);
    }
  }

  // ---------------------------------------------------------------- the committed rows

  lemma {:induction false} CreatedIs(choices: seq<D.Choice>, message: nat, next: nat)
    ensures forall run :: run in Created(choices, message, next) ==> next <= run.id && run.source == Some(message)
    ensures |Created(choices, message, next)| <= |choices|
    ensures forall run :: run in Created(choices, message, next) ==> run.id < next + |choices|
  {
    if choices != [] {
      CreatedIs(choices[1..], message, if choices[0].Create? then next + 1 else next);
    }
  }

  lemma {:induction false} KnownRemains(db: Db, choice: D.Choice, more: seq<RunRow>, id: nat)
    requires Known(db, choice) && !choice.Create? && id in Named(choice)
    ensures FindRun(db.runs + more, id).Some?
  {
    FindRunAppend(db.runs, more, id);
  }

  lemma {:induction false} AppendedFound(runs: seq<RunRow>, row: RunRow, more: seq<RunRow>)
    ensures FindRun(runs + [row] + more, row.id).Some?
  {
    assert (runs + [row] + more)[|runs|] == row;
    FindRunIs(runs + [row] + more, row.id);
  }

  // Every id the send answers with is a row of the committed table.
  lemma {:induction false} AnswerIdsRemain(db: Db, choices: seq<D.Choice>, before: seq<RunRow>, message: nat, next: nat)
    requires forall choice :: choice in choices ==> Known(db, choice)
    ensures Remain(db.runs + before + Created(choices, message, next), AnswerIds(choices, next))
  {
    if choices != [] {
      var rest := choices[1..];
      assert Known(db, choices[0]);
      var all := db.runs + before + Created(choices, message, next);
      if choices[0].Create? {
        var row := RunRow(next, next, Some(message));
        AnswerIdsRemain(db, rest, before + [row], message, next + 1);
        assert all == db.runs + (before + [row]) + Created(rest, message, next + 1);
        AppendedFound(db.runs + before, row, Created(rest, message, next + 1));
        assert all == db.runs + before + [row] + Created(rest, message, next + 1);
      } else {
        AnswerIdsRemain(db, rest, before, message, next);
        forall id | id in Named(choices[0])
          ensures FindRun(all, id).Some?
        {
          KnownRemains(db, choices[0], before + Created(choices, message, next), id);
          assert all == db.runs + (before + Created(choices, message, next));
        }
      }
    }
  }

  // What a successful first send leaves behind.
  lemma {:induction false} CommitFacts(db: Db, nonce: string, group: bool, choices: seq<D.Choice>)
    requires WellFormed(db) && FindNonce(db.messages, nonce).None?
    requires forall choice :: choice in choices ==> Known(db, choice)
    requires AnswerIds(choices, db.nextRun) != []
    ensures
      var ids := AnswerIds(choices, db.nextRun);
      var (db', result) := Commit(db, nonce, group, choices);
      var message := Message(|db.messages|, |db.messages|, nonce, Some(ids[0]));
      && FindNonce(db'.messages, nonce) == Some(message)
      && ReceiptEvent(db'.events, message.id) == Some(Event(message.id, if Listed(group, choices) then Some(ids) else None))
      && Remain(db'.runs, ids)
      && result == SendResult(message, Present(db'.runs, ids))
      && result.Ok? && result.value.runIds == ids
  {
    var id := |db.messages|;
    var ids := AnswerIds(choices, db.nextRun);
    var db' := Commit(db, nonce, group, choices).0;
    var message := Message(id, id, nonce, Some(ids[0]));
    FindNonceAppend(db.messages, [message], nonce);
    AnswerIdsRemain(db, choices, [], id, db.nextRun);
    assert db.runs + [] + Created(choices, id, db.nextRun) == db'.runs;
    PresentAll(db'.runs, ids);
  }

  // ---------------------------------------------------------------- what a first send answers

  function IsCreate(): D.Choice -> bool {
    (choice: D.Choice) => choice.Create?
  }

  // The ids one choice contributes; the runs created by a send are taken in order.
  ghost predicate Contributes(choice: D.Choice, block: seq<nat>, created: seq<RunRow>, position: nat) {
    match choice
    case Answer(runs) => |block| == |runs| && forall k :: 0 <= k < |runs| ==> block[k] == runs[k].id
    case Steer(run, _) => block == [run.id]
    case Create => position < |created| && block == [created[position].id]
  }

  ghost predicate Contributed(choices: seq<D.Choice>, blocks: seq<seq<nat>>, created: seq<RunRow>) {
    && |blocks| == |choices|
    && forall i :: 0 <= i < |choices| ==> Contributes(choices[i], blocks[i], created, |Filter(choices[..i], IsCreate())|)
  }

  /**
   A first send inserts one message, one new run from that message for every target that is to
   start one, and one event, and answers with the ids of all targets' runs, target by target.
   */
  ghost predicate AnswersTargets(db: Db, db': Db, group: bool, choices: seq<D.Choice>, answer: Answer) {
    && db.messages < db'.messages && db.events < db'.events && db.runs <= db'.runs
    && var message, event, created := db'.messages[|db.messages|], db'.events[|db.events|], db'.runs[|db.runs|..];
    && |db'.messages| == |db.messages| + 1 && |db'.events| == |db.events| + 1
    && |created| == |Filter(choices, IsCreate())|
    && (forall run :: run in created ==> run.source == Some(message.id) && run.id in answer.runIds && forall other :: other in db.runs ==> other.id != run.id)
    && (exists blocks: seq<seq<nat>> :: Contributed(choices, blocks, created) && Flatten(blocks) == answer.runIds)
    && answer.runIds != [] && answer.run == answer.runIds[0] && message.run == Some(answer.run) && answer.seqNo == message.seqNo
    && (exists run :: run in db'.runs && run.id == answer.run && run.task == answer.task)
    && event.message == message.id
    && event.runIds == if !group && |choices| == 1 && choices[0].Steer? then None else Some(answer.runIds)
  }

  function Blocks(choices: seq<D.Choice>, next: nat): seq<seq<nat>> {
    if choices == [] then []
    else if choices[0].Create? then [[next]] + Blocks(choices[1..], next + 1)
    else [Named(choices[0])] + Blocks(choices[1..], next)
  }

  lemma {:induction false} BlocksFlatten(choices: seq<D.Choice>, next: nat)
    ensures Flatten(Blocks(choices, next)) == AnswerIds(choices, next)
  {
    if choices != [] {
      var next' := if choices[0].Create? then next + 1 else next;
      BlocksFlatten(choices[1..], next');
      assert Blocks(choices, next)[1..] == Blocks(choices[1..], next');
    }
  }

  lemma {:induction false} CreatedCount(choices: seq<D.Choice>, message: nat, next: nat)
    ensures |Created(choices, message, next)| == |Filter(choices, IsCreate())|
    ensures forall run :: run in Created(choices, message, next) ==> run.id in AnswerIds(choices, next)
  {
    if choices != [] {
      CreatedCount(choices[1..], message, if choices[0].Create? then next + 1 else next);
      CreatesFirst(choices, |choices|);
      assert choices[..|choices|] == choices && choices[1..][..|choices| - 1] == choices[1..];
    }
  }

  // The creating choices among the first i, split at the first.
  lemma {:induction false} CreatesFirst(choices: seq<D.Choice>, i: nat)
    requires 0 < i <= |choices|
    ensures |Filter(choices[..i], IsCreate())| == (if choices[0].Create? then 1 else 0) + |Filter(choices[1..][..i - 1], IsCreate())|
  {
    assert choices[..i] == [choices[0]] + choices[1..][..i - 1];
    FilterConcat([choices[0]], choices[1..][..i - 1], IsCreate());
    OneChoice(choices[0]);
  }

  lemma {:induction false} BlocksContribute(choices: seq<D.Choice>, message: nat, next: nat)
    ensures Contributed(choices, Blocks(choices, next), Created(choices, message, next))
  {
    if choices != [] {
      var rest := choices[1..];
      var next' := if choices[0].Create? then next + 1 else next;
      BlocksContribute(rest, message, next');
      forall i | 0 <= i < |choices|
        ensures Contributes(choices[i], Blocks(choices, next)[i], Created(choices, message, next), |Filter(choices[..i], IsCreate())|)
      {
        if i > 0 {
          CreatesFirst(choices, i);
          LaterContributes(choices, message, next, i, |Filter(rest[..i - 1], IsCreate())|);
        }
      }
    }
  }

  lemma {:induction false} LaterContributes(choices: seq<D.Choice>, message: nat, next: nat, i: nat, position: nat)
    requires 0 < i < |choices|
    ensures
      var next' := if choices[0].Create? then next + 1 else next;
      var (blocks, rest) := (Blocks(choices, next), Blocks(choices[1..], next'));
      |blocks| == |rest| + 1 && (i - 1 < |rest| && Contributes(choices[i], rest[i - 1], Created(choices[1..], message, next'), position) ==>
        Contributes(choices[i], blocks[i], Created(choices, message, next), position + if choices[0].Create? then 1 else 0))
  {
  }

  lemma {:induction false} OneChoice(choice: D.Choice)
    ensures Filter([choice], IsCreate()) == if choice.Create? then [choice] else []
  {
    assert [choice][..0] == [];
  }

  /** What a first send answers, from its choices and the rows it inserts. */
  lemma {:induction false} SendAnswers(db: Db, nonce: string, group: bool, choices: seq<D.Choice>)
    requires WellFormed(db) && FindNonce(db.messages, nonce).None?
    requires forall choice :: choice in choices ==> Known(db, choice)
    requires Send(db, nonce, group, choices).1.Ok?
    ensures AnswersTargets(db, Send(db, nonce, group, choices).0, group, choices, Send(db, nonce, group, choices).1.value)
  {
    var (db', result) := Send(db, nonce, group, choices);
    var answer, id := result.value, |db.messages|;
    CommitFacts(db, nonce, group, choices);
    BlocksContribute(choices, id, db.nextRun);
    CreatedCount(choices, id, db.nextRun);
    BlocksFlatten(choices, db.nextRun);
    CreatedIs(choices, id, db.nextRun);
    var created := Created(choices, id, db.nextRun);
    assert db'.runs[|db.runs|..] == created;
    assert Contributed(choices, Blocks(choices, db.nextRun), created);
    AnswerTask(db'.runs, answer.runIds, Message(id, id, nonce, Some(answer.runIds[0])), answer);
  }

  lemma {:induction false} AnswerTask(runs: seq<RunRow>, ids: seq<nat>, message: Message, answer: Answer)
    requires ids != [] && Remain(runs, ids) && SendResult(message, Present(runs, ids)) == Ok(answer)
    ensures answer.run == ids[0] && answer.seqNo == message.seqNo
    ensures exists run :: run in runs && run.id == answer.run && run.task == answer.task
  {
    PresentAll(runs, ids);
    FindRunIs(runs, ids[0]);
    assert ids[0] in ids;
    var run := FindRun(runs, ids[0]).value;
    assert Present(runs, ids)[0] == run;
    assert run in runs && run.id == answer.run && run.task == answer.task;
  }

  // ---------------------------------------------------------------- the repeat

  // A steered run was there before the message, so the message is not its source.
  lemma {:induction false} SteeredIsOlder(db: Db, group: bool, choices: seq<D.Choice>)
    requires WellFormed(db) && !Listed(group, choices) && Known(db, choices[0])
    ensures AnswerIds(choices, db.nextRun) == [choices[0].run.id] && Created(choices, |db.messages|, db.nextRun) == []
    ensures FindRun(db.runs, choices[0].run.id).value.source != Some(|db.messages|)
  {
    assert choices[1..] == [];
    FindRunIs(db.runs, choices[0].run.id);
  }

  /**
   A repeat gives the first answer exactly while the run rows it named remain and, when the first
   send was a direct steering (whose event names no runs), no run names the message as its source.
   */
  lemma {:induction false} ReplayIsOriginal(db: Db, nonce: string, group: bool, choices: seq<D.Choice>, later: Db)
    requires WellFormed(db) && FindNonce(db.messages, nonce).None?
    requires forall choice :: choice in choices ==> Known(db, choice)
    requires Send(db, nonce, group, choices).1.Ok? && Later(Send(db, nonce, group, choices).0, later)
    ensures
      var answer := Send(db, nonce, group, choices).1.value;
      Replay(later, nonce) == Some(answer)
      <==> Remain(later.runs, answer.runIds) && (Listed(group, choices) || SourceRuns(later.runs, |db.messages|) == [])
  {
    var (db', result) := Send(db, nonce, group, choices);
    var answer, id := result.value, |db.messages|;
    CommitFacts(db, nonce, group, choices);
    var message := FindNonce(db'.messages, nonce).value;
    FindNonceAppend(db'.messages, later.messages[|db'.messages|..], nonce);
    assert later.messages == db'.messages + later.messages[|db'.messages|..];
    var more := later.events[|db'.events|..];
    assert later.events == db'.events + more;
    ReceiptSkips(db'.events, more, id);
    PresentAll(later.runs, answer.runIds);
    PresentAll(db'.runs, answer.runIds);
    SourceRunsIs(later.runs, id);
    if Listed(group, choices) {
      ListedReplay(later, message, db'.runs, answer);
    } else {
      SteeredIsOlder(db, group, choices);
      assert db'.runs == db.runs;
      SteeredReplay(later, message, db'.runs, answer);
    }
  }

  lemma {:induction false} ListedReplay(later: Db, message: Message, runs: seq<RunRow>, answer: Answer)
    requires ReceiptEvent(later.events, message.id) == Some(Event(message.id, Some(answer.runIds)))
    requires FindNonce(later.messages, message.nonce) == Some(message)
    requires message.run == Some(answer.run) && answer.runIds != [] && answer.run == answer.runIds[0]
    requires Remain(runs, answer.runIds) && SendResult(message, Present(runs, answer.runIds)) == Ok(answer)
    requires Distinct(later.runs)
    requires forall id :: FindRun(runs, id).Some? && FindRun(later.runs, id).Some? ==> FindRun(later.runs, id) == FindRun(runs, id)
    ensures Replay(later, message.nonce) == Some(answer) <==> Remain(later.runs, answer.runIds)
  {
    var ids := answer.runIds;
    PresentAll(later.runs, ids);
    if Remain(later.runs, ids) {
      PresentSame(runs, later.runs, ids);
    } else if Present(later.runs, ids) == [] {
      var source := SourceRuns(later.runs, message.id);
      FirstPresent(later.runs, ids);
      if source != [] {
        SourceRunsIs(later.runs, message.id);
        FindRunUnique(later.runs, source[0]);
        assert Ids(source)[0] == source[0].id;
      }
    } else {
      assert |Ids(Present(later.runs, ids))| < |ids|;
    }
  }

  lemma {:induction false} FirstPresent(runs: seq<RunRow>, ids: seq<nat>)
    requires ids != []
    ensures FindRun(runs, ids[0]).Some? ==> Present(runs, ids) != []
  {
  }

  lemma {:induction false} SteeredReplay(later: Db, message: Message, runs: seq<RunRow>, answer: Answer)
    requires ReceiptEvent(later.events, message.id) == Some(Event(message.id, None))
    requires FindNonce(later.messages, message.nonce) == Some(message)
    requires message.run == Some(answer.run) && answer.runIds == [answer.run]
    requires Remain(runs, answer.runIds) && SendResult(message, Present(runs, answer.runIds)) == Ok(answer)
    requires FindRun(runs, answer.run).Some? && FindRun(runs, answer.run).value.source != Some(message.id)
    requires Distinct(later.runs)
    requires forall id :: FindRun(runs, id).Some? && FindRun(later.runs, id).Some? ==> FindRun(later.runs, id) == FindRun(runs, id)
    ensures Replay(later, message.nonce) == Some(answer)
            <==> Remain(later.runs, answer.runIds) && SourceRuns(later.runs, message.id) == []
  {
    var source := SourceRuns(later.runs, message.id);
    assert Present(runs, answer.runIds) == [FindRun(runs, answer.run).value] by {
      assert answer.runIds[1..] == [];
    }
    FindRunIs(later.runs, answer.run);
    assert answer.run in answer.runIds;
    if source != [] {
      SourceRunsIs(later.runs, message.id);
      FindRunUnique(later.runs, source[0]);
      assert Ids(source)[0] == source[0].id;
    }
  }

  /** Under that condition a repeat creates nothing, whatever its own dispatch would have chosen. */
  lemma {:induction false} RepeatCreatesNothing(db: Db, nonce: string, group: bool, choices: seq<D.Choice>, later: Db, group': bool, choices': seq<D.Choice>)
    requires WellFormed(db) && FindNonce(db.messages, nonce).None?
    requires forall choice :: choice in choices ==> Known(db, choice)
    requires Send(db, nonce, group, choices).1.Ok? && Later(Send(db, nonce, group, choices).0, later)
    requires Remain(later.runs, Send(db, nonce, group, choices).1.value.runIds)
    requires Listed(group, choices) || SourceRuns(later.runs, |db.messages|) == []
    ensures Send(later, nonce, group', choices') == (later, Send(db, nonce, group, choices).1)
  {
    ReplayIsOriginal(db, nonce, group, choices, later);
  }

  // ---------------------------------------------------------------- real later sends

  // Rows were only appended, and what was appended belongs to new messages.
  ghost predicate Grown(db: Db, db': Db) {
    && WellFormed(db') && Distinct(db'.runs)
    && db.messages <= db'.messages && db.events <= db'.events && db.runs <= db'.runs
    && (forall k :: |db.events| <= k < |db'.events| ==> |db.messages| <= db'.events[k].message)
    && (forall k :: |db.runs| <= k < |db'.runs| ==> db'.runs[k].source.Some? && |db.messages| <= db'.runs[k].source.value)
  }

  lemma {:induction false} CreatedDistinct(choices: seq<D.Choice>, message: nat, next: nat)
    ensures Distinct(Created(choices, message, next))
  {
    if choices != [] {
      var next' := if choices[0].Create? then next + 1 else next;
      CreatedDistinct(choices[1..], message, next');
      CreatedIs(choices[1..], message, next');
    }
  }

  lemma {:induction false} AppendDistinct(runs: seq<RunRow>, more: seq<RunRow>, next: nat)
    requires Distinct(runs) && Distinct(more)
    requires (forall run :: run in runs ==> run.id < next) && (forall run :: run in more ==> next <= run.id)
    ensures Distinct(runs + more)
  {
    assert forall k :: 0 <= k < |runs| ==> runs[k] in runs;
    assert forall k :: 0 <= k < |more| ==> more[k] in more;
  }

  lemma {:induction false} CommitWellFormed(db: Db, nonce: string, group: bool, choices: seq<D.Choice>)
    requires WellFormed(db) && Distinct(db.runs)
    ensures WellFormed(Commit(db, nonce, group, choices).0) && Distinct(Commit(db, nonce, group, choices).0.runs)
  {
    CreatedIs(choices, |db.messages|, db.nextRun);
    CreatedDistinct(choices, |db.messages|, db.nextRun);
    AppendDistinct(db.runs, Created(choices, |db.messages|, db.nextRun), db.nextRun);
  }

  lemma {:induction false} CommitGrows(db: Db, nonce: string, group: bool, choices: seq<D.Choice>)
    requires WellFormed(db) && Distinct(db.runs)
    ensures Grown(db, Commit(db, nonce, group, choices).0)
  {
    CommitWellFormed(db, nonce, group, choices);
    CreatedIs(choices, |db.messages|, db.nextRun);
    var created := Created(choices, |db.messages|, db.nextRun);
    assert forall k :: 0 <= k < |created| ==> created[k] in created;
  }

  /** A send keeps the tables well formed and is one of the things that may happen after another. */
  lemma {:induction false} SendGrows(db: Db, nonce: string, group: bool, choices: seq<D.Choice>)
    requires WellFormed(db) && Distinct(db.runs)
    ensures Grown(db, Send(db, nonce, group, choices).0) && Later(db, Send(db, nonce, group, choices).0)
  {
    CommitGrows(db, nonce, group, choices);
    GrownIsLater(db, Send(db, nonce, group, choices).0);
  }

  lemma {:induction false} GrownIsLater(db: Db, db': Db)
    requires Grown(db, db')
    ensures Later(db, db')
  {
    var more := db'.runs[|db.runs|..];
    assert db'.runs == db.runs + more;
    forall id
      ensures FindRun(db.runs, id).Some? ==> FindRun(db'.runs, id) == FindRun(db.runs, id)
    {
      FindRunAppend(db.runs, more, id);
    }
  }

  datatype SendCall = SendCall(nonce: string, group: bool, choices: seq<D.Choice>)

  function SendAll(db: Db, calls: seq<SendCall>): Db
    decreases |calls|
  {
    if calls == [] then db else SendAll(Send(db, calls[0].nonce, calls[0].group, calls[0].choices).0, calls[1..])
  }

  lemma {:induction false} SendAllGrows(db: Db, calls: seq<SendCall>)
    requires WellFormed(db) && Distinct(db.runs)
    ensures Grown(db, SendAll(db, calls))
    decreases |calls|
  {
    if calls != [] {
      var next := Send(db, calls[0].nonce, calls[0].group, calls[0].choices).0;
      SendGrows(db, calls[0].nonce, calls[0].group, calls[0].choices);
      SendAllGrows(next, calls[1..]);
    }
  }

  lemma {:induction false} RowsRemain(runs: seq<RunRow>, later: seq<RunRow>, ids: seq<nat>)
    requires runs <= later && Remain(runs, ids)
    ensures Remain(later, ids)
  {
    var more := later[|runs|..];
    assert later == runs + more;
    forall id | id in ids
      ensures FindRun(later, id).Some?
    {
      FindRunAppend(runs, more, id);
    }
  }

  // No run that came after the message's table names the message.
  lemma {:induction false} NoLaterSource(db: Db, db': Db, later: Db, message: nat)
    requires WellFormed(db) && message == |db.messages| && message < |db'.messages| && db'.runs == db.runs && Grown(db', later)
    ensures SourceRuns(later.runs, message) == []
  {
    SourceRunsIs(later.runs, message);
    forall run | run in later.runs
      ensures run.source != Some(message)
    {
      var k :| 0 <= k < |later.runs| && later.runs[k] == run;
      assert k < |db.runs| ==> run == db.runs[k] && db.runs[k] in db.runs;
    }
    assert SourceRuns(later.runs, message) != [] ==> SourceRuns(later.runs, message)[0] in SourceRuns(later.runs, message);
  }

  /**
   After any sends whatever, in any number, a repeat of a committed send answers as the first time
   and creates nothing: the two conditions of the equivalence can fail only by deletions or by a
   run started on the message from elsewhere.
   */
  lemma {:induction false} RepeatAfterSends(db: Db, first: SendCall, between: seq<SendCall>, repeat: SendCall)
    requires WellFormed(db) && Distinct(db.runs) && FindNonce(db.messages, first.nonce).None? && repeat.nonce == first.nonce
    requires forall choice :: choice in first.choices ==> Known(db, choice)
    requires Send(db, first.nonce, first.group, first.choices).1.Ok?
    ensures
      var (sent, answer) := Send(db, first.nonce, first.group, first.choices);
      var later := SendAll(sent, between);
      Send(later, repeat.nonce, repeat.group, repeat.choices) == (later, answer)
  {
    var (sent, answer) := Send(db, first.nonce, first.group, first.choices);
    var later := SendAll(sent, between);
    SendGrows(db, first.nonce, first.group, first.choices);
    SendAllGrows(sent, between);
    GrownIsLater(sent, later);
    CommitFacts(db, first.nonce, first.group, first.choices);
    RowsRemain(sent.runs, later.runs, answer.value.runIds);
    if !Listed(first.group, first.choices) {
      SteeredIsOlder(db, first.group, first.choices);
      assert sent.runs == db.runs;
      NoLaterSource(db, sent, later, |db.messages|);
    }
    RepeatCreatesNothing(db, first.nonce, first.group, first.choices, later, repeat.group, repeat.choices);
  }
}
