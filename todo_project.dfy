/**
  The todo-app debugging project: a todo list whose `addTodo` pushes onto
  the very list held in state, a toggle that flips one todo, and the shared
  bug-hunt checklist of five bugs worth 250 XP.
 */
module TodoProject {
  import opened Text
  import opened BugHunt

  datatype Todo = Todo(id: int, text: string, done: bool)

  const CHECKLIST: seq<string> :=
    ["missing-key", "state-mutation", "memory-leak", "missing-dependency", "index-key"]
  const XP_REWARD: int := 250

  /** The checklist and reward agree with the project card. */
  lemma MatchesCard()
    ensures |CHECKLIST| == TODO_CARD.bugCount && XP_REWARD == TODO_CARD.xpReward
    ensures NoDups(CHECKLIST)
  {
  }

  /** `toggleTodo`: flip `done` on the todos with that id. */
  function ToggledTodos(todos: seq<Todo>, id: int): (r: seq<Todo>)
    ensures |r| == |todos|
    ensures forall i :: 0 <= i < |r| ==>
      r[i].id == todos[i].id && r[i].text == todos[i].text &&
      r[i].done == (if todos[i].id == id then !todos[i].done else todos[i].done)
  {
    seq(|todos|, i requires 0 <= i < |todos| =>
      if todos[i].id == id then todos[i].(done := !todos[i].done) else todos[i])
  }

  /** Toggling the same id twice restores the list; toggling an id no todo
      has changes nothing. */
  lemma ToggleInvolution(todos: seq<Todo>, id: int)
    ensures ToggledTodos(ToggledTodos(todos, id), id) == todos
    ensures (forall t :: t in todos ==> t.id != id) ==> ToggledTodos(todos, id) == todos
  {
    var twice := ToggledTodos(ToggledTodos(todos, id), id);
    assert forall i :: 0 <= i < |todos| ==> twice[i] == todos[i];
    if forall t :: t in todos ==> t.id != id {
      var once := ToggledTodos(todos, id);
      assert forall i :: 0 <= i < |todos| ==> once[i] == todos[i];
    }
  }

  class App {
    var todos: seq<Todo>
    var input: string
    var bugsFound: seq<string>

    ghost predicate Valid()
      reads this
    {
      NoDups(bugsFound) && forall b :: b in bugsFound ==> b in CHECKLIST
    }

    constructor ()
      ensures Valid()
      ensures todos == [Todo(1, "Learn React", false), Todo(2, "Build a project", false)]
      ensures input == "" && bugsFound == []
    {
      todos := [Todo(1, "Learn React", false), Todo(2, "Build a project", false)];
      input := "";
      bugsFound := [];
    }

    method SetInput(text: string)
      modifies this
      ensures input == text && todos == old(todos) && bugsFound == old(bugsFound)
    {
      input := text;
    }

    /** `addTodo`: whitespace-only input is ignored; otherwise a new, not
        done todo with the clock's value as id goes on the end of the list
        and the input is cleared. */
    method AddTodo(now: int)
      modifies this
      ensures bugsFound == old(bugsFound)
      ensures Blank(old(input)) ==> todos == old(todos) && input == old(input)
      ensures !Blank(old(input)) ==>
        todos == old(todos) + [Todo(now, old(input), false)] && input == ""
    {
      if Blank(input) {
        return;
      }
      todos := todos + [Todo(now, input, false)];
      input := "";
    }

    method ToggleTodo(id: int)
      modifies this
      ensures todos == ToggledTodos(old(todos), id)
      ensures input == old(input) && bugsFound == old(bugsFound)
    {
      todos := ToggledTodos(todos, id);
    }

    /** "Mark Found" on checklist entry `k`. */
    method MarkBugFound(k: nat)
      requires Valid() && k < |CHECKLIST|
      modifies this
      ensures Valid() && bugsFound == Marked(old(bugsFound), CHECKLIST[k])
      ensures todos == old(todos) && input == old(input)
    {
      bugsFound := Marked(bugsFound, CHECKLIST[k]);
    }

    /** `shipToProduction`: a completion only once all five bugs are found. */
    method ShipToProduction() returns (r: Option<Completion>)
      requires Valid()
      ensures r == Ship(bugsFound, CHECKLIST, XP_REWARD)
      ensures r.Some? <==> forall b :: b in CHECKLIST ==> b in bugsFound
      ensures r.Some? ==> r.value == Completion(5, 5, 250, true)
    {
      MatchesCard();
      ShipGateIsAllFound(bugsFound, CHECKLIST);
      if |bugsFound| == |CHECKLIST| {
        r := Some(Completion(|CHECKLIST|, |CHECKLIST|, XP_REWARD, true));
      } else {
        r := None;
      }
    }
  }
}
