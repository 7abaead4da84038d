/// The step navigation shared by the three learning views: a cursor into the
/// list of steps (`current_step_index`) and the autoplay flag (`is_playing`).
/// Each view's `next_step`, `prev_step`, `toggle_play` and `current_step`
/// behaves exactly as the functions here.
module Navigation {
  import opened Bytes

  datatype Option<T> = None | Some(value: T)

  /// The index of the displayed step and whether the view is playing.
  datatype Cursor = Cursor(index: nat, playing: bool)

  /// The bounds invariant: the index addresses a step whenever there is
  /// one, and is 0 when there is none.
  predicate InBounds(c: Cursor, count: nat)
  {
    c.index < count || c.index == 0
  }

  /// The cursor `start` leaves: first step, not playing.
  function Initial(): (c: Cursor)
    ensures forall count: nat :: InBounds(c, count)
  {
    Cursor(0, false)
  }

  /// `next_step`: advance while there is a following step, otherwise stop
  /// playing and stay.
  function Next(c: Cursor, count: nat): (r: Cursor)
    ensures r.index == c.index + 1 <==> c.index + 1 < count
    ensures r.index != c.index + 1 ==> r == Cursor(c.index, false)
    ensures r.index == c.index + 1 ==> r.playing == c.playing
    ensures InBounds(c, count) ==> InBounds(r, count)
    ensures InBounds(c, count) && count > 0 ==> r.index == Min(c.index + 1, count - 1)
  {
    if c.index + 1 < count then Cursor(c.index + 1, c.playing) else Cursor(c.index, false)
  }

  /// `prev_step`: step back unless at the first step; playing is untouched.
  function Prev(c: Cursor): (r: Cursor)
    ensures r.playing == c.playing
    ensures r.index == Max(c.index - 1, 0)
    ensures forall count: nat :: InBounds(c, count) ==> InBounds(r, count)
  {
    if c.index > 0 then Cursor(c.index - 1, c.playing) else c
  }

  /// `toggle_play`: flips the playing flag and nothing else.
  function Toggle(c: Cursor): (r: Cursor)
    ensures r.index == c.index && r.playing != c.playing
  {
    Cursor(c.index, !c.playing)
  }

  /// Toggling twice restores the cursor.
  lemma ToggleTwice(c: Cursor)
    ensures Toggle(Toggle(c)) == c
  {
  }

  /// `current_step`: no step for an empty list, otherwise the step under the
  /// cursor (which the bounds invariant keeps in range).
  function Current<T>(steps: seq<T>, c: Cursor): (r: Option<T>)
    requires InBounds(c, |steps|)
    ensures r.None? <==> steps == []
    ensures r.Some? ==> c.index < |steps| && r.value == steps[c.index]
  {
    if |steps| == 0 then None else Some(steps[c.index])
  }

  /// `k` presses of "next".
  function Advance(c: Cursor, count: nat, k: nat): Cursor
  {
    if k == 0 then c else Next(Advance(c, count, k - 1), count)
  }

  /// `k` presses of "previous".
  function Rewind(c: Cursor, k: nat): Cursor
  {
    if k == 0 then c else Prev(Rewind(c, k - 1))
  }

  /// Playing runs to the last step and stops there: after `k` advances the
  /// cursor is `k` further on, clamped to the last step, and still plays
  /// exactly when the last step was not reached by an advance that had no
  /// step to go to.
  lemma {:induction false} AdvanceClamps(c: Cursor, count: nat, k: nat)
    requires InBounds(c, count) && count > 0
    ensures Advance(c, count, k).index == Min(c.index + k, count - 1)
    ensures Advance(c, count, k).playing == (c.playing && c.index + k < count)
  {
    if k > 0 {
      AdvanceClamps(c, count, k - 1);
    }
  }

  /// Going back `k` steps stops at the first step and leaves playing alone.
  lemma {:induction false} RewindClamps(c: Cursor, k: nat)
    ensures Rewind(c, k).index == Max(c.index - k, 0)
    ensures Rewind(c, k).playing == c.playing
  {
    if k > 0 {
      RewindClamps(c, k - 1);
    }
  }

  /// "Previous" undoes "next" whenever "next" moved.
  lemma PrevUndoesNext(c: Cursor, count: nat)
    requires c.index + 1 < count
    ensures Prev(Next(c, count)) == c
  {
  }

  /// "Next" undoes "previous" whenever "previous" moved.
  lemma NextUndoesPrev(c: Cursor, count: nat)
    requires InBounds(c, count) && c.index > 0
    ensures Next(Prev(c), count) == c
  {
  }
}
