/**
  The simulator hook: which catalog mistake is selected, whether its fix is
  applied, the main view, the preview/code view mode and a running score.
 */
module SimulatorState {
  import opened Text
  import opened Catalog

  /** Index of the first catalog entry with the given id, if any. */
  function FindId(ms: seq<Mistake>, id: string): (r: Option<nat>)
    ensures r.Some? ==> r.value < |ms| && ms[r.value].id == id
    ensures r.Some? ==> forall j :: 0 <= j < r.value ==> ms[j].id != id
    ensures r.None? <==> forall j :: 0 <= j < |ms| ==> ms[j].id != id
  {
    if ms == [] then None
    else if ms[0].id == id then Some(0)
    else match FindId(ms[1..], id)
      case None => None
      case Some(k) => Some(k + 1)
  }

  /** `selectedMistake`: the entry with the selected id, or the first entry
      when no entry has it. */
  function Lookup(ms: seq<Mistake>, id: string): (r: Mistake)
    requires |ms| > 0
    ensures r in ms
    ensures (exists m :: m in ms && m.id == id) ==> r.id == id
    ensures (forall m :: m in ms ==> m.id != id) ==> r == ms[0]
  {
    match FindId(ms, id)
    case Some(k) => ms[k]
    case None => ms[0]
  }

  /** Among entries sharing an id, the lookup picks the earliest. */
  lemma LookupPicksFirst(ms: seq<Mistake>, id: string, i: nat)
    requires i < |ms| && ms[i].id == id
    ensures exists k :: 0 <= k <= i && Lookup(ms, id) == ms[k] && ms[k].id == id
  {
    var k := FindId(ms, id);
    assert k.Some? && k.value <= i;
  }

  /** Selecting a mistake leaves the documentation and the analyzer for the
      simulator; every other view stays. */
  function Redirected(view: string): (r: string)
    ensures r != "docs" && r != "analyzer"
    ensures r == view || r == "simulator"
  {
    if view == "docs" || view == "analyzer" then "simulator" else view
  }

  /** Redirecting twice is redirecting once, and it moves exactly the two
      views it names. */
  lemma RedirectIdempotent(view: string)
    ensures Redirected(Redirected(view)) == Redirected(view)
    ensures Redirected(view) != view <==> view == "docs" || view == "analyzer"
  {
  }

  class Session {
    const mistakes: seq<Mistake>
    var mainView: string
    var selectedId: string
    var isFixed: bool
    var viewMode: string
    var score: int

    /** The initial state, over a non-empty catalog. */
    constructor (mistakes: seq<Mistake>)
      requires |mistakes| > 0
      ensures this.mistakes == mistakes
      ensures mainView == "simulator" && selectedId == mistakes[0].id && !isFixed
      ensures viewMode == "preview" && score == 0
      ensures SelectedMistake() == mistakes[0]
    {
      this.mistakes := mistakes;
      mainView := "simulator";
      selectedId := mistakes[0].id;
      isFixed := false;
      viewMode := "preview";
      score := 0;
    }

    function SelectedMistake(): (r: Mistake)
      reads this
      requires |mistakes| > 0
    {
      Lookup(mistakes, selectedId)
    }

    method SelectMistake(id: string)
      modifies this
      ensures selectedId == id && !isFixed && mainView == Redirected(old(mainView))
      ensures viewMode == old(viewMode) && score == old(score)
      ensures |mistakes| > 0 && (exists m :: m in mistakes && m.id == id) ==> SelectedMistake().id == id
    {
      selectedId := id;
      isFixed := false;
      mainView := Redirected(mainView);
    }

    method ToggleFix()
      modifies this
      ensures isFixed == !old(isFixed)
      ensures mainView == old(mainView) && selectedId == old(selectedId)
      ensures viewMode == old(viewMode) && score == old(score)
    {
      isFixed := !isFixed;
    }

    method SetView(mode: string)
      modifies this
      ensures viewMode == mode
      ensures mainView == old(mainView) && selectedId == old(selectedId)
      ensures isFixed == old(isFixed) && score == old(score)
    {
      viewMode := mode;
    }

    method UpdateScore(pts: int)
      modifies this
      ensures score == old(score) + pts
      ensures mainView == old(mainView) && selectedId == old(selectedId)
      ensures isFixed == old(isFixed) && viewMode == old(viewMode)
    {
      score := score + pts;
    }

    /** The exported `setMainView` setter. */
    method SetMainView(view: string)
      modifies this
      ensures mainView == view
      ensures selectedId == old(selectedId) && isFixed == old(isFixed)
      ensures viewMode == old(viewMode) && score == old(score)
    {
      mainView := view;
    }
  }

  /** Toggling the fix twice restores the whole state. */
  method ToggleTwice(s: Session)
    modifies s
    ensures s.isFixed == old(s.isFixed) && s.mainView == old(s.mainView)
    ensures s.selectedId == old(s.selectedId) && s.viewMode == old(s.viewMode)
    ensures s.score == old(s.score)
  {
    s.ToggleFix();
    s.ToggleFix();
  }
}
