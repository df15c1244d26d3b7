/**
  The desktop window manager: a list of window records whose open,
  minimized and z-order flags are changed by four transitions. Every
  transition maps over the whole list and touches only the records whose id
  matches; a window is raised by giving it the current maximum z-index
  plus one, taken over all windows, closed ones included.
 */
module Desktop {

  datatype Point = Point(x: int, y: int)

  datatype Size = Size(width: int, height: int)

  datatype WindowRecord = WindowRecord(
    id: string,
    title: string,
    isOpen: bool,
    isMinimized: bool,
    zIndex: int,
    pos: Point,
    size: Size)

  /** What the taskbar receives for each window. */
  datatype TaskbarEntry = TaskbarEntry(id: string, title: string, isOpen: bool, isActive: bool)

  /** The three windows the desktop starts with. */
  function Seed(): seq<WindowRecord>
  {
    [ WindowRecord("mission", "Mission Control", true, false, 1, Point(50, 50), Size(400, 600)),
      WindowRecord("studio", "DevMistakes Studio", true, false, 2, Point(480, 50), Size(900, 700)),
      WindowRecord("docs", "Documentation", false, false, 3, Point(100, 100), Size(800, 600)) ]
  }

  /** `Math.max(...windows.map(w => w.zIndex))` on a non-empty list. */
  function MaxZ(ws: seq<WindowRecord>): (m: int)
    requires |ws| > 0
    ensures forall i :: 0 <= i < |ws| ==> ws[i].zIndex <= m
    ensures exists i :: 0 <= i < |ws| && ws[i].zIndex == m
  {
    if |ws| == 1 then ws[0].zIndex
    else
      var rest := MaxZ(ws[1..]);
      assert forall i :: 1 <= i < |ws| ==> ws[i] == ws[1..][i - 1];
      if ws[0].zIndex > rest then ws[0].zIndex else rest
  }

  /** The z-index a raised window receives. The list is never empty; on an
      empty list no record matches, so the value is never used. */
  function Top(ws: seq<WindowRecord>): int
  {
    if |ws| == 0 then 0 else MaxZ(ws) + 1
  }

  predicate UniqueIds(ws: seq<WindowRecord>)
  {
    forall i, j :: 0 <= i < j < |ws| ==> ws[i].id != ws[j].id
  }

  predicate DistinctZ(ws: seq<WindowRecord>)
  {
    forall i, j :: 0 <= i < j < |ws| ==> ws[i].zIndex != ws[j].zIndex
  }

  predicate HasId(ws: seq<WindowRecord>, id: string)
  {
    exists i :: 0 <= i < |ws| && ws[i].id == id
  }

  /** `bringToFront(id)` (also the window's onFocus). */
  function Focused(ws: seq<WindowRecord>, id: string): (r: seq<WindowRecord>)
    ensures |r| == |ws|
  {
    var top := Top(ws);
    seq(|ws|, i requires 0 <= i < |ws| =>
      if ws[i].id == id then ws[i].(zIndex := top, isMinimized := false) else ws[i])
  }

  /** `toggleWindow(id)` (minimize button and taskbar click). */
  function Toggled(ws: seq<WindowRecord>, id: string): (r: seq<WindowRecord>)
    ensures |r| == |ws|
  {
    var top := Top(ws);
    seq(|ws|, i requires 0 <= i < |ws| =>
      if ws[i].id != id then ws[i]
      else if ws[i].isMinimized then ws[i].(isMinimized := false, zIndex := top)
      else ws[i].(isMinimized := true))
  }

  /** `closeWindow(id)`. */
  function Closed(ws: seq<WindowRecord>, id: string): (r: seq<WindowRecord>)
    ensures |r| == |ws|
  {
    seq(|ws|, i requires 0 <= i < |ws| => if ws[i].id == id then ws[i].(isOpen := false) else ws[i])
  }

  /** `openWindow(id)` (the start button opens "docs"). */
  function Opened(ws: seq<WindowRecord>, id: string): (r: seq<WindowRecord>)
    ensures |r| == |ws|
  {
    var top := Top(ws);
    seq(|ws|, i requires 0 <= i < |ws| =>
      if ws[i].id == id then ws[i].(isOpen := true, isMinimized := false, zIndex := top) else ws[i])
  }

  /** `taskbarWindows`: active means not minimized and holding the maximum
      z-index over all windows, whether open or not. */
  function TaskbarView(ws: seq<WindowRecord>): (r: seq<TaskbarEntry>)
    ensures |r| == |ws|
  {
    seq(|ws|, i requires 0 <= i < |ws| =>
      TaskbarEntry(ws[i].id, ws[i].title, ws[i].isOpen,
                   !ws[i].isMinimized && ws[i].zIndex == MaxZ(ws)))
  }

  // ---------------------------------------------------------------------
  // The seed

  lemma SeedIsWellFormed()
    ensures UniqueIds(Seed()) && DistinctZ(Seed())
    ensures MaxZ(Seed()) == 3
  {
    var s := Seed();
    assert s[0].id[0] == 'm' && s[1].id[0] == 's' && s[2].id[0] == 'd';
  }

  // ---------------------------------------------------------------------
  // Raising: the chosen window ends strictly above every other one

  /** After `bringToFront(id)` on a present id, that window is the unique
      maximum, is no longer minimized, and nothing else changed. */
  lemma {:induction false} FocusedRaises(ws: seq<WindowRecord>, id: string, k: nat)
    requires UniqueIds(ws) && k < |ws| && ws[k].id == id
    ensures var r := Focused(ws, id);
      && r[k] == ws[k].(zIndex := MaxZ(ws) + 1, isMinimized := false)
      && (forall j :: 0 <= j < |ws| && j != k ==> r[j] == ws[j] && r[j].zIndex < r[k].zIndex)
      && MaxZ(r) == MaxZ(ws) + 1
  {
    var r := Focused(ws, id);
    assert forall j :: 0 <= j < |ws| && j != k ==> r[j] == ws[j];
    var m :| 0 <= m < |r| && r[m].zIndex == MaxZ(r);
    assert r[k].zIndex <= MaxZ(r);
  }

  /** Restoring a minimized window through `toggleWindow` raises it like
      `bringToFront`; minimizing leaves every z-index as it was. */
  lemma {:induction false} ToggledEffect(ws: seq<WindowRecord>, id: string, k: nat)
    requires UniqueIds(ws) && k < |ws| && ws[k].id == id
    ensures ws[k].isMinimized ==> Toggled(ws, id) == Focused(ws, id)
    ensures !ws[k].isMinimized ==>
      Toggled(ws, id) == ws[k := ws[k].(isMinimized := true)]
  {
    var t, f := Toggled(ws, id), Focused(ws, id);
    if ws[k].isMinimized {
      assert forall j :: 0 <= j < |ws| ==> t[j] == f[j];
    } else {
      assert forall j :: 0 <= j < |ws| ==> t[j] == ws[k := ws[k].(isMinimized := true)][j];
    }
  }

  /** `openWindow(id)` is `bringToFront(id)` that also sets `isOpen`;
      position and size are kept. */
  lemma {:induction false} OpenedEffect(ws: seq<WindowRecord>, id: string, k: nat)
    requires UniqueIds(ws) && k < |ws| && ws[k].id == id
    ensures var r := Opened(ws, id);
      && r == Focused(ws, id)[k := Focused(ws, id)[k].(isOpen := true)]
      && r[k].pos == ws[k].pos && r[k].size == ws[k].size
      && MaxZ(r) == MaxZ(ws) + 1
  {
    var r, f := Opened(ws, id), Focused(ws, id);
    FocusedRaises(ws, id, k);
    assert forall j :: 0 <= j < |ws| ==> r[j] == f[k := f[k].(isOpen := true)][j];
    assert forall j :: 0 <= j < |ws| ==> r[j].zIndex == f[j].zIndex;
    var m :| 0 <= m < |r| && r[m].zIndex == MaxZ(r);
    var m' :| 0 <= m' < |f| && f[m'].zIndex == MaxZ(f);
    assert r[m'].zIndex <= MaxZ(r);
  }

  /** `closeWindow(id)` only clears `isOpen` of the matching record. */
  lemma {:induction false} ClosedEffect(ws: seq<WindowRecord>, id: string, k: nat)
    requires UniqueIds(ws) && k < |ws| && ws[k].id == id
    ensures Closed(ws, id) == ws[k := ws[k].(isOpen := false)]
  {
    var r := Closed(ws, id);
    assert forall j :: 0 <= j < |ws| ==> r[j] == ws[k := ws[k].(isOpen := false)][j];
  }

  /** Every transition is a map with no match for an unknown id. */
  lemma UnknownIdIsNoOp(ws: seq<WindowRecord>, id: string)
    requires !HasId(ws, id)
    ensures Focused(ws, id) == ws && Toggled(ws, id) == ws
    ensures Closed(ws, id) == ws && Opened(ws, id) == ws
  {
    assert forall j :: 0 <= j < |ws| ==> ws[j].id != id;
  }

  // ---------------------------------------------------------------------
  // Invariants of the window list

  /** Changing one record, keeping its id and either keeping its z-index
      or moving it above every other one, keeps both invariants. */
  lemma {:induction false} OneRecordChange(ws: seq<WindowRecord>, r: seq<WindowRecord>, k: nat)
    requires UniqueIds(ws) && DistinctZ(ws) && k < |ws| && |r| == |ws|
    requires forall j :: 0 <= j < |ws| && j != k ==> r[j] == ws[j]
    requires r[k].id == ws[k].id
    requires r[k].zIndex == ws[k].zIndex || forall j :: 0 <= j < |ws| && j != k ==> ws[j].zIndex < r[k].zIndex
    ensures UniqueIds(r) && DistinctZ(r)
  {
  }

  /** Ids are never changed, so they stay unique; z-indexes stay pairwise
      distinct because a raise always goes strictly above the maximum. */
  lemma {:induction false} TransitionsKeepInvariant(ws: seq<WindowRecord>, id: string)
    requires UniqueIds(ws) && DistinctZ(ws)
    ensures UniqueIds(Focused(ws, id)) && DistinctZ(Focused(ws, id))
    ensures UniqueIds(Toggled(ws, id)) && DistinctZ(Toggled(ws, id))
    ensures UniqueIds(Closed(ws, id)) && DistinctZ(Closed(ws, id))
    ensures UniqueIds(Opened(ws, id)) && DistinctZ(Opened(ws, id))
  {
    if k :| 0 <= k < |ws| && ws[k].id == id {
      FocusedRaises(ws, id, k);
      OneRecordChange(ws, Focused(ws, id), k);
      ToggledEffect(ws, id, k);
      if !ws[k].isMinimized {
        OneRecordChange(ws, Toggled(ws, id), k);
      }
      ClosedEffect(ws, id, k);
      OneRecordChange(ws, Closed(ws, id), k);
      OpenedEffect(ws, id, k);
      OneRecordChange(ws, Opened(ws, id), k);
    } else {
      UnknownIdIsNoOp(ws, id);
    }
  }

  /** The global maximum never decreases; a raise of a present window lifts
      it by exactly one, and closing or minimizing leaves it where it was. */
  lemma {:induction false} MaxZMonotone(ws: seq<WindowRecord>, id: string)
    requires |ws| > 0 && UniqueIds(ws)
    ensures MaxZ(Focused(ws, id)) == if HasId(ws, id) then MaxZ(ws) + 1 else MaxZ(ws)
    ensures MaxZ(Opened(ws, id)) == if HasId(ws, id) then MaxZ(ws) + 1 else MaxZ(ws)
    ensures MaxZ(Closed(ws, id)) == MaxZ(ws)
    ensures MaxZ(ws) <= MaxZ(Toggled(ws, id)) <= MaxZ(ws) + 1
  {
    if k :| 0 <= k < |ws| && ws[k].id == id {
      FocusedRaises(ws, id, k);
      OpenedEffect(ws, id, k);
      ClosedEffect(ws, id, k);
      ToggledEffect(ws, id, k);
      SameZSameMax(ws, Closed(ws, id));
      if !ws[k].isMinimized {
        SameZSameMax(ws, Toggled(ws, id));
      }
    } else {
      UnknownIdIsNoOp(ws, id);
    }
  }

  /** Lists with the same z-indexes have the same maximum. */
  lemma SameZSameMax(a: seq<WindowRecord>, b: seq<WindowRecord>)
    requires |a| == |b| > 0
    requires forall i :: 0 <= i < |a| ==> a[i].zIndex == b[i].zIndex
    ensures MaxZ(a) == MaxZ(b)
  {
    var i :| 0 <= i < |a| && a[i].zIndex == MaxZ(a);
    var j :| 0 <= j < |b| && b[j].zIndex == MaxZ(b);
    assert b[i].zIndex <= MaxZ(b) && a[j].zIndex <= MaxZ(a);
  }

  // ---------------------------------------------------------------------
  // The taskbar

  /** With distinct z-indexes at most one entry is active, and the active
      one (if any) is the window holding the maximum. */
  lemma {:induction false} AtMostOneActive(ws: seq<WindowRecord>, i: nat, j: nat)
    requires DistinctZ(ws) && i < |ws| && j < |ws|
    requires TaskbarView(ws)[i].isActive && TaskbarView(ws)[j].isActive
    ensures i == j
  {
    var t := TaskbarView(ws);
    assert ws[i].zIndex == MaxZ(ws) == ws[j].zIndex;
  }

  /** When the window holding the maximum is closed or minimized, no window
      that the taskbar lists (the open ones) shows as active. */
  lemma {:induction false} HiddenTopLeavesNoActive(ws: seq<WindowRecord>, k: nat)
    requires DistinctZ(ws) && k < |ws| && ws[k].zIndex == MaxZ(ws)
    requires !ws[k].isOpen || ws[k].isMinimized
    ensures forall j :: 0 <= j < |ws| && TaskbarView(ws)[j].isOpen ==> !TaskbarView(ws)[j].isActive
  {
    var t := TaskbarView(ws);
    forall j | 0 <= j < |ws| && t[j].isOpen
      ensures !t[j].isActive
    {
      if j != k {
        assert ws[j].zIndex != ws[k].zIndex;
      }
    }
  }

  /** After `bringToFront(id)` the focused window is the active one. */
  lemma {:induction false} FocusedIsActive(ws: seq<WindowRecord>, id: string, k: nat)
    requires UniqueIds(ws) && k < |ws| && ws[k].id == id
    ensures TaskbarView(Focused(ws, id))[k].isActive
  {
    FocusedRaises(ws, id, k);
  }

  /** A taskbar click runs `toggleWindow`, not `bringToFront`: clicking the
      button of any window that is not minimized hides it, active or not. */
  lemma {:induction false} TaskbarClickMinimizes(ws: seq<WindowRecord>, id: string, k: nat)
    requires UniqueIds(ws) && k < |ws| && ws[k].id == id && !ws[k].isMinimized
    ensures Toggled(ws, id)[k].isMinimized
    ensures !TaskbarView(Toggled(ws, id))[k].isActive
  {
    ToggledEffect(ws, id, k);
  }

  /** Closing and reopening a window keeps its position and size and brings
      it back open, visible and on top. */
  lemma {:induction false} CloseThenOpen(ws: seq<WindowRecord>, id: string, k: nat)
    requires UniqueIds(ws) && k < |ws| && ws[k].id == id
    ensures var r := Opened(Closed(ws, id), id);
      && r[k].isOpen && !r[k].isMinimized
      && r[k].pos == ws[k].pos && r[k].size == ws[k].size && r[k].title == ws[k].title
      && TaskbarView(r)[k].isActive
  {
    ClosedEffect(ws, id, k);
    var c := Closed(ws, id);
    assert UniqueIds(c);
    OpenedEffect(c, id, k);
    FocusedRaises(c, id, k);
  }

  /** The worked scenario: focusing "mission" lifts it to 4 above "studio"
      (2) and "docs" (3); minimizing "studio" keeps its z-index; focusing it
      again restores it with z-index 5. */
  lemma SeedScenario()
    ensures var s1 := Focused(Seed(), "mission");
      var s2 := Toggled(s1, "studio");
      var s3 := Focused(s2, "studio");
      && s1[0].zIndex == 4 && s1[1] == Seed()[1]
      && s2[1].isMinimized && s2[1].zIndex == 2
      && !s3[1].isMinimized && s3[1].zIndex == 5
  {
    SeedIsWellFormed();
    var s0 := Seed();
    FocusedRaises(s0, "mission", 0);
    var s1 := Focused(s0, "mission");
    assert s1[1].id[0] == 's' && s1[2].id[0] == 'd';
    assert UniqueIds(s1);
    ToggledEffect(s1, "studio", 1);
    var s2 := Toggled(s1, "studio");
    assert UniqueIds(s2);
    SameZSameMax(s1, s2);
    FocusedRaises(s2, "studio", 1);
  }

  // ---------------------------------------------------------------------
  // The stateful desktop

  /** The component's `windows` state and its handlers. */
  class WindowManager {
    var windows: seq<WindowRecord>

    ghost predicate Valid()
      reads this
    {
      |windows| > 0 && UniqueIds(windows) && DistinctZ(windows)
    }

    constructor ()
      ensures Valid() && windows == Seed()
    {
      windows := Seed();
      SeedIsWellFormed();
    }

    method BringToFront(id: string)
      requires Valid()
      modifies this
      ensures Valid() && windows == Focused(old(windows), id)
    {
      TransitionsKeepInvariant(windows, id);
      windows := Focused(windows, id);
    }

    method ToggleWindow(id: string)
      requires Valid()
      modifies this
      ensures Valid() && windows == Toggled(old(windows), id)
    {
      TransitionsKeepInvariant(windows, id);
      windows := Toggled(windows, id);
    }

    method CloseWindow(id: string)
      requires Valid()
      modifies this
      ensures Valid() && windows == Closed(old(windows), id)
    {
      TransitionsKeepInvariant(windows, id);
      windows := Closed(windows, id);
    }

    method OpenWindow(id: string)
      requires Valid()
      modifies this
      ensures Valid() && windows == Opened(old(windows), id)
    {
      TransitionsKeepInvariant(windows, id);
      windows := Opened(windows, id);
    }

    /** The taskbar button handler is `toggleWindow`. */
    method TaskbarClick(id: string)
      requires Valid()
      modifies this
      ensures Valid() && windows == Toggled(old(windows), id)
    {
      ToggleWindow(id);
    }

    /** The start button opens the documentation window. */
    method StartClick()
      requires Valid()
      modifies this
      ensures Valid() && windows == Opened(old(windows), "docs")
    {
      OpenWindow("docs");
    }

    /** The taskbar shows only open windows. */
    function TaskbarButtons(): (r: seq<TaskbarEntry>)
      reads this
      requires Valid()
      ensures forall e :: e in r ==> e.isOpen && e in TaskbarView(windows)
      ensures forall i :: 0 <= i < |windows| && windows[i].isOpen ==> TaskbarView(windows)[i] in r
    {
      OpenEntries(TaskbarView(windows))
    }
  }

  /** `windows.filter(w => w.isOpen)` on taskbar entries. */
  function OpenEntries(es: seq<TaskbarEntry>): (r: seq<TaskbarEntry>)
    ensures forall e :: e in r <==> e in es && e.isOpen
  {
    if es == [] then []
    else if es[0].isOpen then [es[0]] + OpenEntries(es[1..])
    else OpenEntries(es[1..])
  }
}
