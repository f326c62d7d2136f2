/**
 * The canvas's linear undo/redo history: a list of full scene snapshots and the
 * position of the current one.
 */
module UndoHistory {
  import opened Geometry

  /** A scene: the ordered list of drawing elements. */
  type Scene = seq<Element>

  datatype History = History(snapshots: seq<Scene>, index: nat)
  {
    /** The position always names a snapshot. */
    ghost predicate Valid() { index < |snapshots| }

    /** The Undo button is enabled. */
    predicate CanUndo() { index > 0 }

    /** The Redo button is enabled. */
    predicate CanRedo() { index + 1 < |snapshots| }

    function Current(): Scene
      requires Valid()
    {
      snapshots[index]
    }
  }

  /** The history every canvas starts with: one empty snapshot, whatever the initial scene. */
  function Initial(): (h: History)
    ensures h.Valid() && h.Current() == [] && !h.CanUndo() && !h.CanRedo()
  {
    History([[]], 0)
  }

  /** `addToHistory`: keep the snapshots up to the current one, append `scene`, and move to it. */
  function Commit(h: History, scene: Scene): (r: History)
    requires h.Valid()
    ensures r.Valid() && r.Current() == scene
    ensures r.CanUndo() && !r.CanRedo()
    ensures r.index == h.index + 1 && r.snapshots[..r.index] == h.snapshots[..h.index + 1]
  {
    History(h.snapshots[..h.index + 1] + [scene], h.index + 1)
  }

  /** `undo`: step back one snapshot when there is one, otherwise stay. */
  function Undo(h: History): (r: History)
    requires h.Valid()
    ensures r.Valid() && r.snapshots == h.snapshots
    ensures h.CanUndo() ==> r.index + 1 == h.index
    ensures !h.CanUndo() ==> r == h
  {
    if h.index > 0 then h.(index := h.index - 1) else h
  }

  /** `redo`: step forward one snapshot when there is one, otherwise stay. */
  function Redo(h: History): (r: History)
    requires h.Valid()
    ensures r.Valid() && r.snapshots == h.snapshots
    ensures h.CanRedo() ==> r.index == h.index + 1
    ensures !h.CanRedo() ==> r == h
  {
    if h.index < |h.snapshots| - 1 then h.(index := h.index + 1) else h
  }

  /** Undo followed by redo returns to the same history, and so to the same scene. */
  lemma UndoThenRedo(h: History)
    requires h.Valid() && h.CanUndo()
    ensures Undo(h).CanRedo() && Redo(Undo(h)) == h
  {
  }

  /** Redo followed by undo returns to the same history. */
  lemma RedoThenUndo(h: History)
    requires h.Valid() && h.CanRedo()
    ensures Redo(h).CanUndo() && Undo(Redo(h)) == h
  {
  }

  /** A commit never changes the first snapshot. */
  lemma CommitKeepsFirst(h: History, scene: Scene)
    requires h.Valid()
    ensures Commit(h, scene).snapshots[0] == h.snapshots[0]
  {
    assert Commit(h, scene).snapshots[..1] == h.snapshots[..1];
  }

  /**
   * Committing after an undo discards what could have been redone: after
   * commit(S1); commit(S2); undo(); commit(S3) the history ends in S1, S3 and redo does nothing.
   */
  lemma CommitAfterUndoDiscardsRedo(h: History, s1: Scene, s2: Scene, s3: Scene)
    requires h.Valid()
    ensures var r := Commit(Undo(Commit(Commit(h, s1), s2)), s3);
      r.snapshots == h.snapshots[..h.index + 1] + [s1, s3] &&
      r.index == h.index + 2 && !r.CanRedo() && Redo(r) == r
  {
    var h1 := Commit(h, s1);
    var h2 := Commit(h1, s2);
    var u := Undo(h2);
    assert u.snapshots[..u.index + 1] == h1.snapshots;
  }

  /** `n` successive undos. */
  function UndoTimes(h: History, n: nat): (r: History)
    requires h.Valid()
    ensures r.Valid() && r.snapshots == h.snapshots
    decreases n
  {
    if n == 0 then h else UndoTimes(Undo(h), n - 1)
  }

  /** Undoing as many times as the position says leads back to the first snapshot, and no further. */
  lemma {:induction false} UndoTimesReachesFirst(h: History, n: nat)
    requires h.Valid() && n >= h.index
    ensures UndoTimes(h, n).index == 0
    ensures UndoTimes(h, n).Current() == h.snapshots[0]
    decreases n
  {
    if n > 0 {
      UndoTimesReachesFirst(Undo(h), n - 1);
    }
  }
}
