/**
  Linear undo/redo history of editor contents with a cursor. Pushing a new
  state drops everything after the cursor; moving the cursor is guarded so
  that it always stays inside the history.
 */
module TimeTravel {

  /** One history entry; the timestamp is whatever the clock said. */
  datatype Entry = Entry(code: string, timestamp: int)

  /** The two pieces of hook state. */
  datatype Timeline = Timeline(history: seq<Entry>, index: int)
  {
    predicate Valid() { 0 <= index < |history| }
  }

  /** The state right after the hook is first used. */
  function Initial(initialState: string, now: int): (t: Timeline)
    ensures t.Valid() && t.history == [Entry(initialState, now)] && t.index == 0
  {
    Timeline([Entry(initialState, now)], 0)
  }

  /** `updateState`: keep entries up to the cursor, append, move onto it. */
  function Pushed(t: Timeline, code: string, now: int): (r: Timeline)
    requires t.Valid()
  {
    Timeline(t.history[..t.index + 1] + [Entry(code, now)], t.index + 1)
  }

  /** `goBack`. */
  function Back(t: Timeline): Timeline
  {
    if t.index > 0 then t.(index := t.index - 1) else t
  }

  /** `goForward`. */
  function Forward(t: Timeline): Timeline
  {
    if t.index < |t.history| - 1 then t.(index := t.index + 1) else t
  }

  /** `goToIndex(i)`. */
  function Jump(t: Timeline, i: int): Timeline
  {
    if 0 <= i < |t.history| then t.(index := i) else t
  }

  predicate CanUndo(t: Timeline) { t.index > 0 }

  predicate CanRedo(t: Timeline) { t.index < |t.history| - 1 }

  /** `currentState`: the stored code, or the initial state when the stored
      code is falsy (the empty string). */
  function Current(t: Timeline, initialState: string): (r: string)
    requires t.Valid()
    ensures r == t.history[t.index].code || r == initialState
    ensures t.history[t.index].code != "" ==> r == t.history[t.index].code
    ensures r == "" ==> initialState == ""
  {
    if t.history[t.index].code != "" then t.history[t.index].code else initialState
  }

  // ---------------------------------------------------------------------

  /** A push keeps exactly the entries up to the cursor, unchanged, ends
      with the new entry, and leaves nothing to redo. */
  lemma PushTruncates(t: Timeline, code: string, now: int)
    requires t.Valid()
    ensures var r := Pushed(t, code, now);
      && r.Valid()
      && |r.history| == t.index + 2
      && (forall i :: 0 <= i <= t.index ==> r.history[i] == t.history[i])
      && r.history[r.index] == Entry(code, now)
      && CanUndo(r) && !CanRedo(r)
      && Current(r, code) == code
  {
  }

  /** Every cursor move keeps the cursor inside the history and never
      changes the history itself. */
  lemma MovesKeepInvariant(t: Timeline, i: int)
    requires t.Valid()
    ensures Back(t).Valid() && Back(t).history == t.history
    ensures Forward(t).Valid() && Forward(t).history == t.history
    ensures Jump(t, i).Valid() && Jump(t, i).history == t.history
  {
  }

  /** The guards: moves that would leave the history are no-ops. */
  lemma GuardedMovesAreNoOps(t: Timeline, i: int)
    ensures !CanUndo(t) ==> Back(t) == t
    ensures !CanRedo(t) ==> Forward(t) == t
    ensures !(0 <= i < |t.history|) ==> Jump(t, i) == t
  {
  }

  /** Undo then redo returns to the same position and state, and so does
      redo then undo. */
  lemma UndoRedoRoundTrip(t: Timeline)
    requires t.Valid()
    ensures CanUndo(t) ==> Forward(Back(t)) == t
    ensures CanRedo(t) ==> Back(Forward(t)) == t
  {
  }

  /** A push then an undo returns to the state shown before the push. */
  lemma PushThenUndo(t: Timeline, code: string, now: int, initialState: string)
    requires t.Valid()
    ensures Back(Pushed(t, code, now)).index == t.index
    ensures Current(Back(Pushed(t, code, now)), initialState) == Current(t, initialState)
  {
  }

  // ---------------------------------------------------------------------

  /** The hook's state and its handlers. */
  class History {
    const initialState: string
    var history: seq<Entry>
    var currentIndex: int

    function State(): Timeline
      reads this
    {
      Timeline(history, currentIndex)
    }

    ghost predicate Valid()
      reads this
    {
      State().Valid()
    }

    constructor (initialState: string, now: int)
      ensures Valid() && State() == Initial(initialState, now)
      ensures this.initialState == initialState
    {
      this.initialState := initialState;
      history := [Entry(initialState, now)];
      currentIndex := 0;
    }

    method UpdateState(newState: string, now: int)
      requires Valid()
      modifies this
      ensures Valid() && State() == Pushed(old(State()), newState, now)
    {
      history := history[..currentIndex + 1] + [Entry(newState, now)];
      currentIndex := currentIndex + 1;
    }

    method GoBack()
      requires Valid()
      modifies this
      ensures Valid() && State() == Back(old(State()))
    {
      if currentIndex > 0 {
        currentIndex := currentIndex - 1;
      }
    }

    method GoForward()
      requires Valid()
      modifies this
      ensures Valid() && State() == Forward(old(State()))
    {
      if currentIndex < |history| - 1 {
        currentIndex := currentIndex + 1;
      }
    }

    method GoToIndex(index: int)
      requires Valid()
      modifies this
      ensures Valid() && State() == Jump(old(State()), index)
    {
      if index >= 0 && index < |history| {
        currentIndex := index;
      }
    }

    function CurrentState(): string
      reads this
      requires Valid()
    {
      Current(State(), initialState)
    }
  }

  /** Undo followed by redo, as a caller of the hook sees it. */
  method UndoThenRedo(h: History)
    requires h.Valid() && CanUndo(h.State())
    modifies h
    ensures h.Valid() && h.State() == old(h.State())
    ensures h.CurrentState() == old(h.CurrentState())
  {
    h.GoBack();
    h.GoForward();
  }
}
