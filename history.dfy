/**
 * The snapshot undo/redo history every variant keeps: an array of
 * snapshots and a cursor `historyIndex` naming the current one. These
 * functions are the specification the variants' state-changing methods are
 * proved against; the lemmas state what undo and redo promise.
 */
module History {
  datatype Timeline<T> = Timeline(entries: seq<T>, index: int)

  /** The cursor names an entry, or is -1 exactly when nothing was recorded yet. */
  predicate Valid<T>(t: Timeline<T>)
  {
    -1 <= t.index < |t.entries| && (t.index == -1 <==> t.entries == [])
  }

  /** The undo button is enabled exactly when this holds. */
  predicate CanUndo<T>(t: Timeline<T>) { t.index > 0 }

  /** The redo button is enabled exactly when this holds. */
  predicate CanRedo<T>(t: Timeline<T>) { t.index < |t.entries| - 1 }

  /**
   * `saveState`: drop every entry after the cursor, append the snapshot and
   * move the cursor onto it.
   */
  function Record<T>(t: Timeline<T>, s: T): (r: Timeline<T>)
    requires -1 <= t.index < |t.entries|
    ensures Valid(r)
    ensures r.index == |r.entries| - 1 >= 0 && r.entries[r.index] == s
    ensures !CanRedo(r)
  {
    Timeline(t.entries[..t.index + 1] + [s], t.index + 1)
  }

  /** Recording keeps every entry up to the cursor, in place, and only those. */
  lemma RecordKeepsPast<T>(t: Timeline<T>, s: T)
    requires -1 <= t.index < |t.entries|
    ensures var r := Record(t, s);
      |r.entries| == t.index + 2 && forall i :: 0 <= i <= t.index ==> r.entries[i] == t.entries[i]
  {
  }

  /** Undo: a no-op at the first entry, otherwise the cursor moves back by one. */
  function Undo<T>(t: Timeline<T>): (r: Timeline<T>)
    requires Valid(t)
    ensures Valid(r) && r.entries == t.entries
    ensures CanUndo(t) ==> r.index == t.index - 1 && CanRedo(r)
    ensures !CanUndo(t) ==> r == t
  {
    if t.index <= 0 then t else Timeline(t.entries, t.index - 1)
  }

  /** Redo: a no-op at the last entry, otherwise the cursor moves forward by one. */
  function Redo<T>(t: Timeline<T>): (r: Timeline<T>)
    requires Valid(t)
    ensures Valid(r) && r.entries == t.entries
    ensures CanRedo(t) ==> r.index == t.index + 1 && CanUndo(r)
    ensures !CanRedo(t) ==> r == t
  {
    if t.index >= |t.entries| - 1 then t else Timeline(t.entries, t.index + 1)
  }

  /** Undo right after recording brings back the snapshot that was current before. */
  lemma UndoAfterRecord<T>(t: Timeline<T>, s: T)
    requires Valid(t) && t.index >= 0
    ensures var u := Undo(Record(t, s)); u.entries[u.index] == t.entries[t.index]
  {
    var r := Record(t, s);
    assert r.entries[t.index] == t.entries[..t.index + 1][t.index];
  }

  /** A redo following an undo restores the newer snapshot exactly. */
  lemma RedoUndoes<T>(t: Timeline<T>)
    requires Valid(t) && CanUndo(t)
    ensures Redo(Undo(t)) == t
  {
  }

  /** An undo following a redo returns to where it started. */
  lemma UndoRedoes<T>(t: Timeline<T>)
    requires Valid(t) && CanRedo(t)
    ensures Undo(Redo(t)) == t
  {
  }

  /** Recording after an undo discards the undone entries, so redo becomes a no-op. */
  lemma RecordAfterUndoDropsRedo<T>(t: Timeline<T>, s: T)
    requires Valid(t) && CanUndo(t)
    ensures var r := Record(Undo(t), s);
      |r.entries| == t.index + 1 && Redo(r) == r
  {
  }

  // ---------------------------------------------------------------------
  // The capped history of digitizer.js

  /**
   * digitizer.js `addToHistory` as written: when the history is full it drops
   * the oldest entry (and moves the cursor back) BEFORE truncating after the
   * cursor, then records.
   */
  function RecordCappedAsWritten<T>(t: Timeline<T>, s: T, cap: nat): (r: Timeline<T>)
    requires Valid(t) && 1 <= cap && |t.entries| <= cap
    ensures Valid(r) && r.index == |r.entries| - 1 >= 0 && r.entries[r.index] == s
    ensures |r.entries| <= cap
  {
    var shifted := if |t.entries| >= cap then Timeline(t.entries[1..], t.index - 1) else t;
    Record(shifted, s)
  }

  /**
   * With a full history whose cursor sits on the first entry, the as-written
   * order throws away the current snapshot: afterwards nothing can be undone.
   */
  lemma CappedAsWrittenLosesCurrent<T>(entries: seq<T>, s: T)
    requires |entries| == 50
    ensures var r := RecordCappedAsWritten(Timeline(entries, 0), s, 50);
      r.entries == [s] && !CanUndo(r)
  {
  }

  /**
   * The evidently intended order: truncate after the cursor first, and drop
   * the oldest entry only if the history is still full.
   */
  function RecordCapped<T>(t: Timeline<T>, s: T, cap: nat): (r: Timeline<T>)
    requires Valid(t) && 2 <= cap && |t.entries| <= cap
    ensures Valid(r) && r.index == |r.entries| - 1 >= 0 && r.entries[r.index] == s
    ensures |r.entries| <= cap
    ensures t.index >= 0 ==> CanUndo(r) && r.entries[r.index - 1] == t.entries[t.index]
    ensures |t.entries[..t.index + 1]| < cap ==> r == Record(t, s)
  {
    var kept := t.entries[..t.index + 1];
    if |kept| >= cap then Timeline(kept[1..] + [s], |kept| - 1)
    else Record(t, s)
  }

  /** With the corrected order, undo right after a capped record restores the previous snapshot. */
  lemma UndoAfterRecordCapped<T>(t: Timeline<T>, s: T, cap: nat)
    requires Valid(t) && 2 <= cap && |t.entries| <= cap && t.index >= 0
    ensures var u := Undo(RecordCapped(t, s, cap)); u.entries[u.index] == t.entries[t.index]
  {
  }
}
