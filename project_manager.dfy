/**
  The project hook: the project being debugged and the ids of completed
  projects. The main-view setter and the XP callback belong to the caller;
  the model keeps the view it last set and the XP amounts it passed on.
 */
module ProjectManager {
  import opened Text
  import opened BugHunt

  /** The completion list after a result arrives: the selected project's id
      is appended exactly when the result is perfect and a project is
      selected. */
  function Recorded(completed: seq<string>, selected: Option<Card>, result: Completion): (r: seq<string>)
    ensures |completed| <= |r| <= |completed| + 1 && r[..|completed|] == completed
    ensures |r| == |completed| + 1 <==> result.perfectScore && selected.Some?
    ensures |r| == |completed| + 1 ==> r[|completed|] == selected.value.id
  {
    if result.perfectScore && selected.Some? then completed + [selected.value.id] else completed
  }

  /** Replaying a completed project and finishing it again records its id a
      second time: completions are not de-duplicated. */
  lemma ReplayRecordsAgain(completed: seq<string>, p: Card, result: Completion)
    requires p.id in completed && result.perfectScore
    ensures var r := Recorded(completed, Some(p), result);
      |r| == |completed| + 1 && multiset(r)[p.id] == multiset(completed)[p.id] + 1
  {
    var r := Recorded(completed, Some(p), result);
    assert r == completed + [p.id];
  }

  /** Without a perfect result, or without a selection, nothing is recorded. */
  lemma ImperfectRecordsNothing(completed: seq<string>, selected: Option<Card>, result: Completion)
    requires !result.perfectScore || selected.None?
    ensures Recorded(completed, selected, result) == completed
  {
  }

  class Manager {
    var selectedProject: Option<Card>
    var completedProjects: seq<string>
    /** The view last passed to `setMainView`. */
    var mainView: string
    /** The amounts passed to `addXp`, in order. */
    var xpGranted: seq<int>

    constructor (mainView: string)
      ensures selectedProject == None && completedProjects == [] && xpGranted == []
      ensures this.mainView == mainView
    {
      selectedProject := None;
      completedProjects := [];
      this.mainView := mainView;
      xpGranted := [];
    }

    method HandleProjectSelect(project: Card)
      modifies this
      ensures selectedProject == Some(project) && mainView == "project-debug"
      ensures completedProjects == old(completedProjects) && xpGranted == old(xpGranted)
    {
      selectedProject := Some(project);
      mainView := "project-debug";
    }

    method HandleProjectComplete(result: Completion)
      modifies this
      ensures completedProjects == Recorded(old(completedProjects), old(selectedProject), result)
      ensures xpGranted == old(xpGranted) +
        (if result.perfectScore && old(selectedProject).Some? then [result.xpEarned] else [])
      ensures selectedProject == None && mainView == "projects"
    {
      if result.perfectScore && selectedProject.Some? {
        completedProjects := completedProjects + [selectedProject.value.id];
        xpGranted := xpGranted + [result.xpEarned];
      }
      selectedProject := None;
      mainView := "projects";
    }
  }

  /** Selecting a card and shipping a perfect result records the card's id
      and grants the result's XP. */
  method PlayThrough(m: Manager, card: Card, result: Completion)
    requires result.perfectScore
    modifies m
    ensures m.completedProjects == old(m.completedProjects) + [card.id]
    ensures m.xpGranted == old(m.xpGranted) + [result.xpEarned]
    ensures m.selectedProject == None && m.mainView == "projects"
  {
    m.HandleProjectSelect(card);
    m.HandleProjectComplete(result);
  }
}
