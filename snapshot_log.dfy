/** A directory of timestamp-prefixed snapshot files, read back in listing order, as a sequence
    of snapshots, oldest first. `initial` is the state a loader builds when no file applies
    (`RankingSystem()`, a new `TicketSystem`, `BubbleLadder()`). */
module SnapshotLog {

  /** `save`: the new file has the newest timestamp, so it lists last. */
  function Save<T>(log: seq<T>, snapshot: T): seq<T>
  {
    log + [snapshot]
  }

  /** `load`: the newest snapshot, or `initial` when the directory is empty. */
  function Load<T>(log: seq<T>, initial: T): T
  {
    if |log| > 0 then log[|log| - 1] else initial
  }

  /** `all`: the state before any snapshot, followed by every snapshot in order. */
  function All<T>(log: seq<T>, initial: T): seq<T>
  {
    [initial] + log
  }

  /** Python's `files[-count:]`: the last `count` files, all of them when there are fewer,
      and (as `-0 == 0`) all of them for `count == 0`. */
  function PyTail<T>(log: seq<T>, count: nat): (r: seq<T>)
  {
    if count == 0 || count >= |log| then log else log[|log| - count..]
  }

  /** `latest(count)`: the last `count` snapshots; when fewer than `count` exist, one initial state
      is put in front of all of them. */
  function Latest<T>(log: seq<T>, initial: T, count: nat): seq<T>
  {
    var tail := PyTail(log, count);
    if |tail| < count then [initial] + tail else tail
  }

  /** `undo`: removes the newest file; on an empty directory nothing changes and `false` reports
      the "nothing to undo" message. */
  function Undo<T>(log: seq<T>): (seq<T>, bool)
  {
    if |log| > 0 then (log[..|log| - 1], true) else (log, false)
  }

  /** Undo removes exactly the newest snapshot and reports whether there was one. */
  lemma UndoRemovesNewest<T>(log: seq<T>)
    ensures Undo(log).1 <==> log != []
    ensures log != [] ==> Undo(log).0 + [log[|log| - 1]] == log
    ensures log == [] ==> Undo(log).0 == []
  {
  }

  /** `all` starts with the initial state and then lists every snapshot oldest first. */
  lemma AllShape<T>(log: seq<T>, initial: T)
    ensures |All(log, initial)| == |log| + 1
    ensures All(log, initial)[0] == initial
    ensures forall i :: 0 <= i < |log| ==> All(log, initial)[i + 1] == log[i]
  {
  }

  /** For a positive count, `latest` is the last `count` snapshots when that many exist and
      otherwise one initial state followed by every snapshot. */
  lemma LatestShape<T>(log: seq<T>, initial: T, count: nat)
    requires count >= 1
    ensures count <= |log| ==> Latest(log, initial, count) == log[|log| - count..]
    ensures count <= |log| ==> |Latest(log, initial, count)| == count
    ensures count > |log| ==> Latest(log, initial, count) == [initial] + log
  {
  }

  /** For a positive count, `latest(count)` is the newest `min(count, |log| + 1)` states of `all`. */
  lemma LatestIsTailOfAll<T>(log: seq<T>, initial: T, count: nat)
    requires count >= 1
    ensures var all := All(log, initial);
            var n := if count <= |all| then count else |all|;
            Latest(log, initial, count) == all[|all| - n..]
  {
    var all := All(log, initial);
    if count <= |log| {
      assert all[|all| - count..] == log[|log| - count..];
    } else {
      assert all[|all| - |all|..] == all;
    }
  }

  /** Python's slice quirk: `latest(0)` is every snapshot, not none. */
  lemma LatestZero<T>(log: seq<T>, initial: T)
    ensures Latest(log, initial, 0) == log
  {
  }

  /** Saving a snapshot and undoing removes exactly that snapshot again, so `load` gives back
      what it gave before the save. */
  lemma UndoAfterSave<T>(log: seq<T>, snapshot: T, initial: T)
    ensures Undo(Save(log, snapshot)) == (log, true)
    ensures Load(Undo(Save(log, snapshot)).0, initial) == Load(log, initial)
  {
    assert (log + [snapshot])[..|log|] == log;
  }

  /** After a save, `load` returns the saved snapshot. */
  lemma LoadAfterSave<T>(log: seq<T>, snapshot: T, initial: T)
    ensures Load(Save(log, snapshot), initial) == snapshot
  {
  }

  /** Undo on a non-empty log makes the snapshot before the newest one current. */
  lemma LoadAfterUndo<T>(log: seq<T>, initial: T)
    requires |log| >= 1
    ensures Load(Undo(log).0, initial) == (if |log| >= 2 then log[|log| - 2] else initial)
  {
  }
}
