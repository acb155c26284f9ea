/**
 Publishing and deleting artifact versions. Deleting a family is a loop that removes one version
 at a time, blob before row, and the root last, while no row points to it.
 */
module ArtifactDeletion {
  import opened Common

  // `owner` is the (space, user) pair, `slot` the (bot, group, lower-case name) triple a new version
  // is matched by, `key` the blob's storage key.
  datatype Row = Row(root: Option<nat>, owner: nat, slot: nat, version: nat, key: nat)

  datatype Event = BlobRemoved(key: nat) | RowDeleted(id: nat)

  datatype Error = Isolation | BlobStore

  datatype Deletion = Deleted | HasChild | Refused

  predicate InFamily(rows: map<nat, Row>, id: nat, root: nat) {
    id in rows && (id == root || rows[id].root == Some(root))
  }

  // The owner-scoped findMany of the loop.
  function Members(rows: map<nat, Row>, owner: nat, root: nat): set<nat> {
    set id | id in rows && InFamily(rows, id, root) && rows[id].owner == owner
  }

  // The child lookup of the root's transaction, which is not scoped to the owner.
  function Children(rows: map<nat, Row>, root: nat): set<nat> {
    set id | id in rows && rows[id].root == Some(root)
  }

  function RootOf(rows: map<nat, Row>, id: nat): nat
    requires id in rows
  {
    if rows[id].root.Some? then rows[id].root.value else id
  }

  // A version's root is a row, a root itself and of the same owner.
  ghost predicate Families(rows: map<nat, Row>) {
    forall id :: id in rows && rows[id].root.Some? ==>
      var root := rows[id].root.value;
      root in rows && rows[root].root.None? && rows[root].owner == rows[id].owner
  }

  ghost predicate OneOwner(rows: map<nat, Row>, owner: nat, root: nat) {
    forall id :: id in Children(rows, root) ==> rows[id].owner == owner
  }

  lemma {:induction false} FamilyHasOneOwner(rows: map<nat, Row>, id: nat)
    requires Families(rows) && id in rows
    ensures RootOf(rows, id) in rows && rows[RootOf(rows, id)].root.None?
    ensures OneOwner(rows, rows[id].owner, RootOf(rows, id))
  {
  }

  // Each deleted row follows the removal of its blob; the root follows every child.
  ghost predicate BlobsFirst(log: seq<Event>, rows: map<nat, Row>) {
    forall i :: 0 <= i < |log| && log[i].RowDeleted? ==>
      log[i].id in rows && exists j :: 0 <= j < i && log[j] == BlobRemoved(rows[log[i].id].key)
  }

  ghost predicate RootLast(log: seq<Event>, rows: map<nat, Row>, root: nat) {
    forall i :: 0 <= i < |log| && log[i] == RowDeleted(root) ==>
      forall id :: id in Children(rows, root) ==> exists j :: 0 <= j < i && log[j] == RowDeleted(id)
  }

  ghost function Gone(log: seq<Event>): set<nat> {
    set i | 0 <= i < |log| && log[i].RowDeleted? :: log[i].id
  }

  ghost function Removed(log: seq<Event>): set<nat> {
    set i | 0 <= i < |log| && log[i].BlobRemoved? :: log[i].key
  }

  // One row deleted, blob first.
  lemma {:induction false} DeletionAppends(log: seq<Event>, rows: map<nat, Row>, root: nat, id: nat)
    requires id in rows && BlobsFirst(log, rows) && RootLast(log, rows, root)
    requires id == root ==> Children(rows, root) <= Gone(log)
    ensures
      var log' := log + [BlobRemoved(rows[id].key), RowDeleted(id)];
      && BlobsFirst(log', rows) && RootLast(log', rows, root)
      && Gone(log') == Gone(log) + {id} && Removed(log') == Removed(log) + {rows[id].key}
  {
    var log' := log + [BlobRemoved(rows[id].key), RowDeleted(id)];
    var n := |log|;
    assert log'[n] == BlobRemoved(rows[id].key) && log'[n + 1] == RowDeleted(id);
    assert forall i :: 0 <= i < n ==> log'[i] == log[i];
    forall i | 0 <= i < |log'| && log'[i].RowDeleted?
      ensures log'[i].id in rows && exists j :: 0 <= j < i && log'[j] == BlobRemoved(rows[log'[i].id].key)
    {
      if i < n {
        var j :| 0 <= j < i && log[j] == BlobRemoved(rows[log[i].id].key);
        assert log'[j] == log[j];
      }
    }
    forall i, child | 0 <= i < |log'| && log'[i] == RowDeleted(root) && child in Children(rows, root)
      ensures exists j :: 0 <= j < i && log'[j] == RowDeleted(child)
    {
      if i < n {
        var j :| 0 <= j < i && log[j] == RowDeleted(child);
        assert log'[j] == log[j];
      } else {
        var j :| 0 <= j < n && log[j].RowDeleted? && log[j].id == child;
        assert log'[j] == log[j];
      }
    }
    forall x | x in Gone(log) + {id}
      ensures x in Gone(log')
    {
      if x in Gone(log) {
        var j :| 0 <= j < n && log[j].RowDeleted? && log[j].id == x;
        assert log'[j] == log[j];
      }
    }
    forall x | x in Removed(log) + {rows[id].key}
      ensures x in Removed(log')
    {
      if x in Removed(log) {
        var j :| 0 <= j < n && log[j].BlobRemoved? && log[j].key == x;
        assert log'[j] == log[j];
      }
    }
  }

  // The rows a new version of this owner's is matched against.
  function Slot(rows: map<nat, Row>, owner: nat, slot: nat): set<nat> {
    set id | id in rows && rows[id].owner == owner && rows[id].slot == slot
  }

  lemma {:induction false} HighestExists(rows: map<nat, Row>, ids: set<nat>)
    requires ids != {} && ids <= rows.Keys
    ensures exists id :: id in ids && forall other :: other in ids ==> rows[other].version <= rows[id].version
    decreases ids
  {
    var id :| id in ids;
    if ids != {id} {
      var rest := ids - {id};
      assert ids == rest + {id};
      HighestExists(rows, rest);
      var best :| best in rest && forall other :: other in rest ==> rows[other].version <= rows[best].version;
      var highest := if rows[best].version <= rows[id].version then id else best;
      assert highest in ids && forall other :: other in ids ==> rows[other].version <= rows[highest].version;
    }
  }

  // With one owner, no child is left once the root is the only member.
  lemma {:induction false} NoChildLeft(rows: map<nat, Row>, owner: nat, root: nat)
    requires OneOwner(rows, owner, root) && Members(rows, owner, root) == {root} && rows[root].root.None?
    ensures Children(rows, root) == {}
  {
    forall id | id in Children(rows, root)
      ensures id in Members(rows, owner, root) && id != root
    {
    }
  }

  // ---------------------------------------------------------------- one iteration

  // One iteration; `pick` is which of the children find() returns first.
  datatype Iteration = Again(rows: map<nat, Row>) | Finished(ok: bool)

  function Iterate(rows: map<nat, Row>, faulty: set<nat>, owner: nat, root: nat, pick: set<nat> -> nat): Iteration {
    var members := Members(rows, owner, root);
    var children := members - {root};
    if members == {} then Finished(true)
    else if children != {} then
      var child := pick(children);
      if child !in children then Finished(false)  // pick returns one of the children
      else if rows[child].key in faulty then Finished(false) else Again(rows - {child})
    else if Children(rows, root) != {} then Again(rows)
    else Finished(rows[root].key !in faulty)
  }

  ghost predicate Picks(pick: set<nat> -> nat) {
    forall s: set<nat> :: s != {} ==> pick(s) in s
  }

  // The row an iteration deletes, if it deletes one.
  function Victim(rows: map<nat, Row>, faulty: set<nat>, owner: nat, root: nat, pick: set<nat> -> nat): Option<nat> {
    var members := Members(rows, owner, root);
    var children := members - {root};
    var id := if children != {} then pick(children) else root;
    if members == {} || id !in members || rows[id].key in faulty || (children == {} && Children(rows, root) != {}) then None
    else Some(id)
  }

  function After(log: seq<Event>, rows: map<nat, Row>, victim: Option<nat>): seq<Event>
    requires victim.Some? ==> victim.value in rows
  {
    if victim.None? then log else log + [BlobRemoved(rows[victim.value].key), RowDeleted(victim.value)]
  }

  // Every iteration deletes a row, in order, or ends the loop.
  lemma {:induction false} TurnProgress(rows0: map<nat, Row>, rows: map<nat, Row>, faulty: set<nat>, owner: nat, root: nat,
                                        pick: set<nat> -> nat, log: seq<Event>)
    requires Picks(pick) && OneOwner(rows0, owner, root) && (root in rows ==> rows[root].root.None?)
    requires Gone(log) <= Members(rows0, owner, root) && rows == rows0 - Gone(log)
    requires BlobsFirst(log, rows0) && RootLast(log, rows0, root)
    requires forall id :: id in Gone(log) ==> rows0[id].key !in faulty
    ensures
      var victim := Victim(rows, faulty, owner, root, pick);
      && (victim.Some? ==> victim.value in Members(rows, owner, root) && rows[victim.value].key !in faulty)
      && var log' := After(log, rows, victim);
         && BlobsFirst(log', rows0) && RootLast(log', rows0, root)
         && (victim.Some? ==> Gone(log') == Gone(log) + {victim.value} && Removed(log') == Removed(log) + {rows0[victim.value].key})
    ensures
      var victim, turn := Victim(rows, faulty, owner, root, pick), Iterate(rows, faulty, owner, root, pick);
      && (turn.Again? ==> victim.Some? && victim != Some(root) && turn.rows == rows - {victim.value})
      && (turn.Finished? ==>
            && (turn.ok <==> forall id :: id in Members(rows0, owner, root) ==> rows0[id].key !in faulty)
            && (turn.ok ==> Gone(After(log, rows, victim)) == Members(rows0, owner, root)))
  {
    var members := Members(rows, owner, root);
    var children := members - {root};
    assert members == Members(rows0, owner, root) - Gone(log);
    if members != {} && children == {} {
      assert members == {root};
      assert OneOwner(rows, owner, root);
      NoChildLeft(rows, owner, root);
      forall id | id in Children(rows0, root)
        ensures id in Gone(log)
      {
        assert id in Members(rows0, owner, root) && id !in Children(rows, root);
      }
    }
    var victim := Victim(rows, faulty, owner, root, pick);
    if victim.Some? {
      DeletionAppends(log, rows0, root, victim.value);
    }
    var turn := Iterate(rows, faulty, owner, root, pick);
    if turn == Finished(false) {
      var id := if children != {} then pick(children) else root;
      assert id in Members(rows0, owner, root) && rows0[id].key in faulty;
    } else if turn.Finished? {
      assert members == if victim.Some? then {root} else {};
      assert forall id :: id in Members(rows0, owner, root) ==> id in Gone(log) || id in members;
      assert Gone(After(log, rows, victim)) == Members(rows0, owner, root);
    }
  }

  // ---------------------------------------------------------------- the table

  class ArtifactTable {
    var rows: map<nat, Row>
    var blobs: set<nat>
    // blob removals the store refuses with an error other than "already removed"
    const faulty: set<nat>
    const pick: set<nat> -> nat
    // the removals of the latest family deletion
    ghost var log: seq<Event>

    ghost predicate Valid()
      reads this
    {
      Families(rows) && Picks(pick)
    }

    constructor (faulty: set<nat>, pick: set<nat> -> nat)
      requires Picks(pick)
      ensures Valid() && rows == map[]
    {
      this.faulty, this.pick := faulty, pick;
      rows, blobs, log := map[], {}, [];
    }

    /**
     createOwnedArtifact and the publishing of a thread's files: the new version joins the family of
     the highest version in its slot, which is the same owner's; false when the family already has
     that version, which the unique index refuses.
     */
    method Publish(id: nat, owner: nat, slot: nat, key: nat) returns (published: bool)
      requires Valid() && id !in rows
      modifies this`rows, this`blobs
      ensures Valid()
      ensures !published ==> rows == old(rows) && blobs == old(blobs)
      ensures published ==>
        && blobs == old(blobs) + {key}
        && id in rows && rows == old(rows)[id := rows[id]]
        && rows[id].owner == owner && rows[id].slot == slot && rows[id].key == key
        && (rows[id].root.None? <==> Slot(old(rows), owner, slot) == {})
        && (forall other :: other in Slot(old(rows), owner, slot) ==> old(rows)[other].version < rows[id].version)
        && (rows[id].root.Some? ==>
              exists previous :: && previous in Slot(old(rows), owner, slot)
                                 && rows[id].root.value == RootOf(old(rows), previous)
                                 && rows[id].version == old(rows)[previous].version + 1)
        && (rows[id].root.None? ==> rows[id].version == 1)
    {
      var same := Slot(rows, owner, slot);
      var row := Row(None, owner, slot, 1, key);
      if same != {} {
        HighestExists(rows, same);
        var previous :| previous in same && forall other :: other in same ==> rows[other].version <= rows[previous].version;
        row := Row(Some(RootOf(rows, previous)), owner, slot, rows[previous].version + 1, key);
        if exists other :: other in rows && RootOf(rows, other) == RootOf(rows, previous) && rows[other].version == row.version {
          return false;
        }
      }
      rows := rows[id := row];
      blobs := blobs + {key};
      published := true;
    }

    // Deleting a bot's rows, or a group's: the versions of a deleted root go with it.
    method Purge(ids: set<nat>)
      requires Valid()
      modifies this`rows
      ensures Valid() && rows == old(rows) - (set id | id in old(rows) && (id in ids || RootOf(old(rows), id) in ids))
    {
      rows := rows - (set id | id in rows && (id in ids || RootOf(rows, id) in ids));
    }

    // A deleted bot's group artifacts lose their bot.
    method Unassign(ids: set<nat>, slot: nat -> nat)
      requires Valid()
      modifies this`rows
      ensures Valid() && rows.Keys == old(rows).Keys
      ensures forall id :: id in rows ==>
                rows[id] == if id in ids then old(rows)[id].(slot := slot(old(rows)[id].slot)) else old(rows)[id]
    {
      rows := map id | id in rows :: if id in ids then rows[id].(slot := slot(rows[id].slot)) else rows[id];
    }

    method RemoveBlob(key: nat) returns (ok: bool)
      modifies this`blobs, this`log
      ensures ok == (key !in faulty)
      ensures ok ==> blobs == old(blobs) - {key} && log == old(log) + [BlobRemoved(key)]
      ensures !ok ==> blobs == old(blobs) && log == old(log)
    {
      if key in faulty {
        return false;
      }
      blobs := blobs - {key};
      log := log + [BlobRemoved(key)];
      ok := true;
    }

    // Nothing may point to the row.
    method DeleteRow(id: nat)
      requires Valid() && Children(rows, id) == {}
      modifies this`rows, this`log
      ensures Valid() && rows == old(rows) - {id} && log == old(log) + [RowDeleted(id)]
    {
      assert forall other :: other in rows && rows[other].root == Some(id) ==> other in Children(rows, id);
      rows := rows - {id};
      log := log + [RowDeleted(id)];
    }

    // deleteArtifactRootIfChildless
    method DeleteRootIfChildless(root: nat) returns (outcome: Deletion)
      requires Valid() && root in rows
      modifies this`rows, this`blobs, this`log
      ensures Valid()
      ensures outcome.HasChild? <==> Children(old(rows), root) != {}
      ensures outcome.Refused? <==> Children(old(rows), root) == {} && old(rows)[root].key in faulty
      ensures !outcome.Deleted? ==> rows == old(rows) && blobs == old(blobs) && log == old(log)
      ensures outcome.Deleted? ==>
        && rows == old(rows) - {root} && blobs == old(blobs) - {old(rows)[root].key}
        && log == old(log) + [BlobRemoved(old(rows)[root].key), RowDeleted(root)]
    {
      if Children(rows, root) != {} {
        return HasChild;
      }
      var ok := RemoveBlob(rows[root].key);
      if !ok {
        return Refused;
      }
      DeleteRow(root);
      outcome := Deleted;
    }

    /** The body of the loop. */
    method Turn(owner: nat, root: nat) returns (turn: Iteration)
      requires Valid() && (root in rows ==> rows[root].root.None?)
      modifies this`rows, this`blobs, this`log
      ensures Valid() && turn == Iterate(old(rows), faulty, owner, root, pick)
      ensures turn.Again? ==> rows == turn.rows
      ensures
        var victim := Victim(old(rows), faulty, owner, root, pick);
        if victim.None? then rows == old(rows) && blobs == old(blobs) && log == old(log)
        else
          && victim.value in old(rows) && rows == old(rows) - {victim.value}
          && blobs == old(blobs) - {old(rows)[victim.value].key}
          && log == old(log) + [BlobRemoved(old(rows)[victim.value].key), RowDeleted(victim.value)]
    {
      var members := Members(rows, owner, root);
      if members == {} {
        return Finished(true);
      }
      var children := members - {root};
      if children != {} {
        var child := pick(children);
        var ok := RemoveBlob(rows[child].key);
        if !ok {
          return Finished(false);
        }
        DeleteRow(child);
        return Again(rows);
      }
      assert members == {root};
      var outcome := DeleteRootIfChildless(root);
      if outcome.HasChild? {
        return Again(rows);
      }
      return Finished(outcome.Deleted?);
    }

    /**
     deleteArtifactFamily. A family has one owner, which is what makes the loop end: the measure
     is the number of members left.
     */
    method DeleteFamily(owner: nat, family: nat) returns (r: Result<(), Error>)
      requires Valid()
      modifies this`rows, this`blobs, this`log
      ensures Valid()
      ensures !(family in old(rows) && old(rows)[family].owner == owner) ==>
        r == Err(Isolation) && rows == old(rows) && blobs == old(blobs) && log == []
      ensures family in old(rows) && old(rows)[family].owner == owner ==>
        var root := RootOf(old(rows), family);
        && (r.Ok? <==> forall id :: id in Members(old(rows), owner, root) ==> old(rows)[id].key !in faulty)
        && (r.Ok? ==> rows == old(rows) - Members(old(rows), owner, root))
        && Gone(log) <= Members(old(rows), owner, root) && rows == old(rows) - Gone(log)
        && BlobsFirst(log, old(rows)) && RootLast(log, old(rows), root)
        && blobs == old(blobs) - Removed(log)
    {
      log := [];
      if family !in rows || rows[family].owner != owner {
        return Err(Isolation);
      }
      var root := RootOf(rows, family);
      FamilyHasOneOwner(rows, family);
      ghost var rows0, all := rows, Members(rows, owner, root);
      while true
        invariant Valid() && OneOwner(rows, owner, root) && (root in rows ==> rows[root].root.None?)
        invariant Gone(log) <= all && rows == rows0 - Gone(log)
        invariant forall id :: id in Gone(log) ==> rows0[id].key !in faulty
        invariant root in Gone(log) ==> Members(rows, owner, root) == {}
        invariant BlobsFirst(log, rows0) && RootLast(log, rows0, root)
        invariant blobs == old(blobs) - Removed(log)
        decreases Members(rows, owner, root)
      {
        TurnProgress(rows0, rows, faulty, owner, root, pick, log);
        var turn := Turn(owner, root);
        if turn.Finished? {
          return if turn.ok then Ok(()) else Err(BlobStore);
        }
      }
    }
  }

  // ---------------------------------------------------------------- when the loop ends

  predicate Ends(rows: map<nat, Row>, faulty: set<nat>, owner: nat, root: nat, pick: set<nat> -> nat, iterations: nat) {
    iterations > 0 &&
    match Iterate(rows, faulty, owner, root, pick)
    case Finished(_) => true
    case Again(next) => Ends(next, faulty, owner, root, pick, iterations - 1)
  }

  // The owner's root with a version of somebody else's under it.
  predicate Shared(rows: map<nat, Row>, owner: nat, root: nat) {
    root in rows && rows[root].owner == owner && exists id :: id in Children(rows, root) && rows[id].owner != owner
  }

  predicate Blocked(rows: map<nat, Row>, faulty: set<nat>, owner: nat, root: nat) {
    exists id :: id in Children(rows, root) && rows[id].owner == owner && rows[id].key in faulty
  }

  /**
   Without inserts, the loop ends exactly when no other owner's version hangs under the owner's
   root, or a blob of the owner's versions cannot be removed; and then within the family size
   plus one iterations.
   */
  lemma {:induction false} LoopEnds(rows: map<nat, Row>, faulty: set<nat>, owner: nat, root: nat, pick: set<nat> -> nat)
    requires Picks(pick) && (root in rows ==> rows[root].root.None?)
    requires !Shared(rows, owner, root) || Blocked(rows, faulty, owner, root)
    ensures Ends(rows, faulty, owner, root, pick, |Members(rows, owner, root)| + 1)
    decreases Members(rows, owner, root)
  {
    var members := Members(rows, owner, root);
    var children := members - {root};
    if children != {} {
      var child := pick(children);
      if rows[child].key !in faulty {
        var next := rows - {child};
        assert Members(next, owner, root) == members - {child};
        if Shared(rows, owner, root) {
          var id :| id in Children(rows, root) && rows[id].owner == owner && rows[id].key in faulty;
          assert id in Children(next, root);
        } else {
          assert !Shared(next, owner, root) by {
            assert Children(next, root) <= Children(rows, root);
          }
        }
        LoopEnds(next, faulty, owner, root, pick);
      }
    } else if members != {} {
      assert root in members;
      assert forall id :: id in Children(rows, root) ==> rows[id].owner != owner || id in children;
    }
  }

  lemma {:induction false} LoopDiverges(rows: map<nat, Row>, faulty: set<nat>, owner: nat, root: nat, pick: set<nat> -> nat, iterations: nat)
    requires Picks(pick) && (root in rows ==> rows[root].root.None?)
    requires Shared(rows, owner, root) && !Blocked(rows, faulty, owner, root)
    ensures !Ends(rows, faulty, owner, root, pick, iterations)
    decreases iterations
  {
    if iterations > 0 {
      var members := Members(rows, owner, root);
      var children := members - {root};
      assert root in members;
      var foreign :| foreign in Children(rows, root) && rows[foreign].owner != owner;
      if children != {} {
        var child := pick(children);
        assert child in Children(rows, root) && child != foreign;
        var next := rows - {child};
        assert foreign in Children(next, root);
        assert Children(next, root) <= Children(rows, root);
        LoopDiverges(next, faulty, owner, root, pick, iterations - 1);
      } else {
        LoopDiverges(rows, faulty, owner, root, pick, iterations - 1);
      }
    }
  }

  ghost predicate Terminates(rows: map<nat, Row>, faulty: set<nat>, owner: nat, root: nat, pick: set<nat> -> nat) {
    exists n: nat :: Ends(rows, faulty, owner, root, pick, n)
  }

  /** The exact condition under which deleting a family ends. */
  lemma {:induction false} DeletionEndsExactly(rows: map<nat, Row>, faulty: set<nat>, owner: nat, root: nat, pick: set<nat> -> nat)
    requires Picks(pick) && (root in rows ==> rows[root].root.None?)
    ensures Terminates(rows, faulty, owner, root, pick)
            <==> !Shared(rows, owner, root) || Blocked(rows, faulty, owner, root)
  {
    if !Shared(rows, owner, root) || Blocked(rows, faulty, owner, root) {
      LoopEnds(rows, faulty, owner, root, pick);
      var n: nat := |Members(rows, owner, root)| + 1;
      assert Ends(rows, faulty, owner, root, pick, n);
    } else {
      forall n: nat
        ensures !Ends(rows, faulty, owner, root, pick, n)
      {
        LoopDiverges(rows, faulty, owner, root, pick, n);
      }
    }
  }

  /** Publishing and deleting never put one owner's version under another's root, so every deletion ends. */
  lemma {:induction false} EveryDeletionEnds(rows: map<nat, Row>, faulty: set<nat>, family: nat, pick: set<nat> -> nat)
    requires Families(rows) && Picks(pick) && family in rows
    ensures
      var owner, root := rows[family].owner, RootOf(rows, family);
      !Shared(rows, owner, root) && Ends(rows, faulty, owner, root, pick, |Members(rows, owner, root)| + 1)
  {
    FamilyHasOneOwner(rows, family);
    LoopEnds(rows, faulty, rows[family].owner, RootOf(rows, family), pick);
  }
}
