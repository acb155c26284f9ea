/**
 Tracing a run back to the chat message it answers: a run names its source message, that message
 replies to a message of an earlier run, and so on, over any finite graph, cyclic ones included.
 */
module ExternalOrigin {
  import opened Common

  const BOT_MESSAGE_MAX_HOPS := 6

  datatype Origin = Origin(conversationId: nat, replyThreadId: Option<nat>)

  // A message's entry is the run of the message it replies to, a run's its source message.
  datatype Graph = Graph(
    messages: map<nat, Option<nat>>,
    runs: map<nat, Option<nat>>,
    external: map<nat, Origin>)

  function ParentRun(g: Graph, message: nat): Option<nat> {
    if message in g.messages then g.messages[message] else None
  }

  function Source(g: Graph, run: nat): Option<nat> {
    if run in g.runs then g.runs[run] else None
  }

  // The run k steps above the parent run of a message.
  function Ancestor(g: Graph, source: Option<nat>, k: nat): Option<nat>
    decreases k
  {
    if source.None? then None
    else
      var parent := ParentRun(g, source.value);
      if parent.None? || k == 0 then parent else Ancestor(g, Source(g, parent.value), k - 1)
  }

  ghost predicate External(g: Graph, source: Option<nat>, k: nat) {
    Ancestor(g, source, k).Some? && Ancestor(g, source, k).value in g.external
  }

  ghost predicate NoneBelow(g: Graph, source: Option<nat>, bound: nat) {
    forall k: nat :: k < bound ==> !External(g, source, k)
  }

  /** The origin is that of the nearest ancestor with one, within the hop bound. */
  ghost predicate IsOrigin(g: Graph, source: Option<nat>, found: Option<Origin>) {
    if found.Some? then
      exists k: nat :: k <= BOT_MESSAGE_MAX_HOPS && External(g, source, k) && NoneBelow(g, source, k)
        && g.external[Ancestor(g, source, k).value] == found.value
    else NoneBelow(g, source, BOT_MESSAGE_MAX_HOPS + 1)
  }

  /** There is one such answer. */
  lemma {:induction false} OriginIsUnique(g: Graph, source: Option<nat>, a: Option<Origin>, b: Option<Origin>)
    requires IsOrigin(g, source, a) && IsOrigin(g, source, b)
    ensures a == b
  {
    if a.Some? && b.Some? {
      var j: nat :| j <= BOT_MESSAGE_MAX_HOPS && External(g, source, j) && NoneBelow(g, source, j)
        && g.external[Ancestor(g, source, j).value] == a.value;
      var k: nat :| k <= BOT_MESSAGE_MAX_HOPS && External(g, source, k) && NoneBelow(g, source, k)
        && g.external[Ancestor(g, source, k).value] == b.value;
      assert j >= k && k >= j;
    }
  }

  // The chain above an ancestor depends on that ancestor alone.
  lemma {:induction false} ChainContinues(g: Graph, source: Option<nat>, k: nat, i: nat)
    requires Ancestor(g, source, k).Some?
    ensures Ancestor(g, source, k + 1 + i) == Ancestor(g, Source(g, Ancestor(g, source, k).value), i)
    decreases k
  {
    if k > 0 {
      ChainContinues(g, Source(g, ParentRun(g, source.value).value), k - 1, i);
    }
  }

  lemma {:induction false} ChainEnds(g: Graph, source: Option<nat>, k: nat, n: nat)
    requires Ancestor(g, source, k).None? && k <= n
    ensures Ancestor(g, source, n).None?
    decreases k
  {
    if source.Some? && ParentRun(g, source.value).Some? {
      ChainEnds(g, Source(g, ParentRun(g, source.value).value), k - 1, n - 1);
    }
  }

  // Once a run repeats, every later ancestor is one already seen.
  lemma {:induction false} Repeats(g: Graph, source: Option<nat>, j: nat, k: nat, n: nat)
    requires j < k <= n && Ancestor(g, source, k).Some? && Ancestor(g, source, j) == Ancestor(g, source, k)
    ensures exists i: nat :: i < k && Ancestor(g, source, i) == Ancestor(g, source, n)
    decreases n
  {
    if n == k {
      assert Ancestor(g, source, j) == Ancestor(g, source, n);
    } else {
      ChainContinues(g, source, k, n - k - 1);
      ChainContinues(g, source, j, n - k - 1);
      var n' := j + 1 + (n - k - 1);
      assert Ancestor(g, source, n') == Ancestor(g, source, n);
      if n' >= k {
        Repeats(g, source, j, k, n');
      }
    }
  }

  /** A repeated run proves that no ancestor at any depth is external, if none so far was. */
  lemma {:induction false} CycleHasNoOrigin(g: Graph, source: Option<nat>, j: nat, k: nat, bound: nat)
    requires j < k && Ancestor(g, source, k).Some? && Ancestor(g, source, j) == Ancestor(g, source, k)
    requires NoneBelow(g, source, k)
    ensures NoneBelow(g, source, bound)
  {
    forall n: nat | n < bound
      ensures !External(g, source, n)
    {
      if n >= k {
        Repeats(g, source, j, k, n);
        var i: nat :| i < k && Ancestor(g, source, i) == Ancestor(g, source, n);
        assert !External(g, source, i);
      }
    }
  }

  lemma {:induction false} ChainStops(g: Graph, source: Option<nat>, k: nat, bound: nat)
    requires Ancestor(g, source, k).None? && NoneBelow(g, source, k)
    ensures NoneBelow(g, source, bound)
  {
    forall n: nat | n < bound
      ensures !External(g, source, n)
    {
      if n >= k {
        ChainEnds(g, source, k, n);
      }
    }
  }

  ghost predicate Visited(g: Graph, source: Option<nat>, visited: set<nat>, depth: nat) {
    forall run :: run in visited ==> exists j: nat :: j < depth && Ancestor(g, source, j) == Some(run)
  }

  // current is where the chain continues after `depth` ancestors.
  ghost predicate At(g: Graph, source: Option<nat>, current: Option<nat>, depth: nat) {
    if depth == 0 then current == source
    else Ancestor(g, source, depth - 1).Some? && current == Source(g, Ancestor(g, source, depth - 1).value)
  }

  lemma {:induction false} NextAncestor(g: Graph, source: Option<nat>, current: Option<nat>, depth: nat)
    requires At(g, source, current, depth)
    ensures Ancestor(g, source, depth) == if current.None? then None else ParentRun(g, current.value)
  {
    if depth > 0 {
      ChainContinues(g, source, depth - 1, 0);
    }
  }

  /** findExternalOrigin: the walk stops early at a repeated run, which never changes its answer. */
  method FindExternalOrigin(g: Graph, sourceMessageId: Option<nat>) returns (found: Option<Origin>)
    ensures IsOrigin(g, sourceMessageId, found)
  {
    var current := sourceMessageId;
    var visitedRunIds: set<nat> := {};
    var depth := 0;
    while current.Some? && depth <= BOT_MESSAGE_MAX_HOPS
      invariant 0 <= depth <= BOT_MESSAGE_MAX_HOPS + 1
      invariant At(g, sourceMessageId, current, depth)
      invariant NoneBelow(g, sourceMessageId, depth)
      invariant Visited(g, sourceMessageId, visitedRunIds, depth)
    {
      NextAncestor(g, sourceMessageId, current, depth);
      var parentRunId := ParentRun(g, current.value);
      if parentRunId.None? {
        ChainStops(g, sourceMessageId, depth, BOT_MESSAGE_MAX_HOPS + 1);
        return None;
      }
      if parentRunId.value in visitedRunIds {
        ghost var j: nat :| j < depth && Ancestor(g, sourceMessageId, j) == parentRunId;
        CycleHasNoOrigin(g, sourceMessageId, j, depth, BOT_MESSAGE_MAX_HOPS + 1);
        return None;
      }
      visitedRunIds := visitedRunIds + {parentRunId.value};
      if parentRunId.value in g.external {
        assert External(g, sourceMessageId, depth);
        return Some(g.external[parentRunId.value]);
      }
      current := Source(g, parentRunId.value);
      depth := depth + 1;
    }
    if current.None? {
      NextAncestor(g, sourceMessageId, current, depth);
      ChainStops(g, sourceMessageId, depth, BOT_MESSAGE_MAX_HOPS + 1);
    }
    return None;
  }
}
