# DevMistakes: a verified model of its interactive logic

DevMistakes is a React application for learning to recognise common front-end
mistakes. It has a mistake catalog and a broken/fixed simulator, a code
auditor, a multi-framework playground and a five-level quiz. It also has
three "bug hunt" projects and a desktop-style window manager. This project
models the sequential logic behind those views in Dafny and proves
properties of it. The logic covered is:

- the desktop's window z-order;
- the undo/redo history;
- the auditor's rules, score and grade;
- the playground's pass check and run status;
- the quiz's scoring;
- the simulator and project bookkeeping;
- the terminal log and the deploy button;
- the impact classification;
- the debugging projects' found-bug lists, ship gates, todo and cart updates, and dashboard stats.

One Dafny module is written per source file. State the source keeps in component or hook
state is a class whose methods state the new state, usually through a
pure function of the old state. Lemmas about those functions carry the
properties. Modules:

| file | module | models |
|---|---|---|
| `text.dfy` | `Text` | `includes`, ASCII `toLowerCase`, `\s`/`trim` whitespace, `Option` |
| `catalog.dfy` | `Catalog` | the mistake record and category names |
| `desktop.dfy` | `Desktop` | window records, the four transitions, the taskbar view |
| `time_travel.dfy` | `TimeTravel` | the undo/redo hook |
| `code_analyzer.dfy` | `CodeAnalyzer` | the eight audit rules, score, grade, scan status |
| `live_playground.dfy` | `LivePlayground` | starter templates, pass check, run status |
| `challenge_mode.dfy` | `ChallengeMode` | quiz options, answers, levels, XP bonuses |
| `simulator_state.dfy` | `SimulatorState` | selection lookup, fix toggle, view redirect, score |
| `project_manager.dfy` | `ProjectManager` | project selection and completion recording |
| `simulator_layout.dfy` | `SimulatorLayout` | terminal log, deploy, peer reviews |
| `explanation_panel.dfy` | `ExplanationPanel` | impact scores by category |
| `bug_hunt.dfy` | `BugHunt` | found-bug lists, ship gate, project cards |
| `todo_project.dfy`, `cart_project.dfy`, `dashboard_project.dfy` | `TodoProject`, `CartProject`, `DashboardProject` | the three debugging projects |

## Model

| member | source | states |
|---|---|---|
| Desktop.SeedIsWellFormed | src/components/os/Desktop.jsx:10-14 | the three seeded windows have unique ids and distinct z-indexes 1, 2, 3; the maximum is 3 |
| Desktop.FocusedRaises | src/components/os/Desktop.jsx:16-21 | `bringToFront` gives the window max + 1, strictly above every other, clears `isMinimized`, and changes no other field and no other window |
| Desktop.ToggledEffect | src/components/os/Desktop.jsx:23-31 | toggling a minimized window is exactly `bringToFront`; toggling a visible one only sets `isMinimized`, keeping its z-index; `isOpen` is not consulted |
| Desktop.ClosedEffect | src/components/os/Desktop.jsx:33-35 | `closeWindow` changes only `isOpen` of the matching window |
| Desktop.OpenedEffect | src/components/os/Desktop.jsx:37-41 | `openWindow` is `bringToFront` plus `isOpen`, keeps position and size, and lifts the maximum by one |
| Desktop.UnknownIdIsNoOp | src/components/os/Desktop.jsx:16-41 | every transition leaves the list unchanged for an id no window has |
| Desktop.TransitionsKeepInvariant | src/components/os/Desktop.jsx:16-41 | all four transitions keep ids unique and z-indexes pairwise distinct |
| Desktop.MaxZMonotone | src/components/os/Desktop.jsx:16-41 | the maximum z-index never decreases; each raise of a present window adds exactly one; close leaves it |
| Desktop.AtMostOneActive | src/components/os/Desktop.jsx:74-79 | with distinct z-indexes at most one taskbar entry is active |
| Desktop.HiddenTopLeavesNoActive | src/components/os/Desktop.jsx:74-79 | when the top window is closed or minimized, no open window is active, since closed windows still count for the maximum |
| Desktop.FocusedIsActive | src/components/os/Desktop.jsx:16-21 | after `bringToFront` the window is the active one |
| Desktop.TaskbarClickMinimizes | src/components/os/Desktop.jsx:113 | a taskbar click toggles, so clicking a visible window, even the active one, minimizes it and it stops being active |
| Desktop.CloseThenOpen | src/components/os/Desktop.jsx:33-41 | close then open keeps position, size and title and leaves the window open, visible and active |
| Desktop.SeedScenario | src/components/os/Desktop.jsx:10-31 | from the seed: focusing "mission" gives it 4, minimizing "studio" keeps its 2, focusing it again gives it 5 |
| Desktop.WindowManager.constructor | src/components/os/Desktop.jsx:10-14 | the desktop starts with the seeded windows, satisfying the invariant |
| Desktop.WindowManager.BringToFront | src/components/os/Desktop.jsx:16-21 | the window list becomes `Focused` of the old list; the invariant is kept |
| Desktop.WindowManager.ToggleWindow | src/components/os/Desktop.jsx:23-31 | the list becomes `Toggled` of the old list; the invariant is kept |
| Desktop.WindowManager.CloseWindow | src/components/os/Desktop.jsx:33-35 | the list becomes `Closed` of the old list; the invariant is kept |
| Desktop.WindowManager.OpenWindow | src/components/os/Desktop.jsx:37-41 | the list becomes `Opened` of the old list; the invariant is kept |
| Desktop.WindowManager.TaskbarClick | src/components/os/Desktop.jsx:113 | the taskbar handler is `toggleWindow` |
| Desktop.WindowManager.StartClick | src/components/os/Desktop.jsx:114 | the start button opens the documentation window |
| Desktop.WindowManager.TaskbarButtons | src/components/os/Desktop.jsx:74-79 | the taskbar lists exactly the open windows' entries |
| TimeTravel.Initial | src/hooks/useTimeTravel.js:4-5 | the history starts as one entry holding the initial state, with the cursor on it |
| TimeTravel.Current | src/hooks/useTimeTravel.js:28 | `currentState` is the stored code, falling back to the initial state only when the stored code is empty |
| TimeTravel.PushTruncates | src/hooks/useTimeTravel.js:7-13 | `updateState` keeps exactly the entries up to the cursor, unchanged, appends the new one, moves onto it, and leaves nothing to redo |
| TimeTravel.MovesKeepInvariant | src/hooks/useTimeTravel.js:15-25 | back, forward and jump keep 0 ≤ cursor < length and never change the history |
| TimeTravel.GuardedMovesAreNoOps | src/hooks/useTimeTravel.js:15-25 | back at 0, forward at the end and an out-of-range jump change nothing |
| TimeTravel.UndoRedoRoundTrip | src/hooks/useTimeTravel.js:15-21 | when undo is possible, undo then redo is the identity, and symmetrically for redo |
| TimeTravel.PushThenUndo | src/hooks/useTimeTravel.js:7-17 | a push followed by an undo shows the state shown before the push |
| TimeTravel.History.constructor | src/hooks/useTimeTravel.js:4-5 | the hook starts in the `Initial` state |
| TimeTravel.History.UpdateState | src/hooks/useTimeTravel.js:7-13 | the state becomes `Pushed` of the old state |
| TimeTravel.History.GoBack | src/hooks/useTimeTravel.js:15-17 | the state becomes `Back` of the old state |
| TimeTravel.History.GoForward | src/hooks/useTimeTravel.js:19-21 | the state becomes `Forward` of the old state |
| TimeTravel.History.GoToIndex | src/hooks/useTimeTravel.js:23-25 | the state becomes `Jump` of the old state |
| TimeTravel.UndoThenRedo | src/hooks/useTimeTravel.js:15-21 | through the hook, undo then redo restores the state and the shown code |
| CodeAnalyzer.Findings | src/components/CodeAnalyzer.jsx:20-108 | one finding per fired rule, in the same order |
| CodeAnalyzer.Check | src/components/CodeAnalyzer.jsx:20-108 | one rule step: the finding is pushed and the penalty subtracted exactly when the rule fires |
| CodeAnalyzer.Analyze | src/components/CodeAnalyzer.jsx:16-111 | the findings are those of the fired rules in rule order; the score is 100 minus their penalties clamped at 0, so it lies in 0..100; no findings iff score 100 |
| CodeAnalyzer.Clamped | src/components/CodeAnalyzer.jsx:110 | clamping the running score at 0 gives a score in 0..100 that is 100 exactly when nothing was found |
| CodeAnalyzer.PenaltyPositive | src/components/CodeAnalyzer.jsx:28-107 | every rule costs something, so the penalty total is 0 only when no rule fired |
| CodeAnalyzer.GradeBands | src/components/CodeAnalyzer.jsx:116-120 | A+ iff score ≥ 90, B iff 70 ≤ score < 90, F iff score < 70; the grade is monotone in the score |
| CodeAnalyzer.FiredInRuleOrder | src/components/CodeAnalyzer.jsx:20-108 | findings follow the fixed rule order, each rule at most once |
| CodeAnalyzer.FiredMembers | src/components/CodeAnalyzer.jsx:20-108 | a rule produces a finding iff its condition holds |
| CodeAnalyzer.OnlyOneFires | src/components/CodeAnalyzer.jsx:20-108 | when exactly one rule's condition holds, the findings are that rule alone |
| CodeAnalyzer.ScoreOfOne | src/components/CodeAnalyzer.jsx:17-110 | a single finding costs exactly its rule's penalty |
| CodeAnalyzer.DangerousHtmlAloneIsB | src/components/CodeAnalyzer.jsx:65-75 | code with only the XSS sink scores 70, grade B |
| CodeAnalyzer.MissingKeyAloneIsF | src/components/CodeAnalyzer.jsx:20-29 | a keyless `map(` alone scores 60, grade F |
| CodeAnalyzer.ConditionalHookAloneIsF | src/components/CodeAnalyzer.jsx:31-40 | a hook inside an `if` block alone scores 50, grade F |
| CodeAnalyzer.Auditor.constructor | src/components/CodeAnalyzer.jsx:6-9 | empty code, no results, not scanning, score 100 |
| CodeAnalyzer.Auditor.Edit | src/components/CodeAnalyzer.jsx:165 | typing replaces the code and nothing else |
| CodeAnalyzer.Auditor.ClickAnalyze | src/components/CodeAnalyzer.jsx:11-13 | a scan starts, clearing the results and capturing the code, only when the code is not whitespace-only and no scan runs (the button is disabled otherwise, line 185) |
| CodeAnalyzer.Auditor.TimerFires | src/components/CodeAnalyzer.jsx:15-113 | the scan ends with the findings and score of the captured code |
| LivePlayground.FrameworkCode | src/components/LivePlayground.jsx:14-18 | React's starter is the mistake's broken code; Vue's mentions `reactive` |
| LivePlayground.VueTemplatePasses | src/components/LivePlayground.jsx:15-29 | running the Vue starter unedited passes |
| LivePlayground.SvelteNeedsTheFix | src/components/LivePlayground.jsx:27-29 | under Svelte a run passes iff the lower-cased code contains the lower-cased, whitespace-free fixed snippet |
| Text.StripSpaceKeeps | src/components/LivePlayground.jsx:27 | `replace(/\s/g, '')` keeps exactly the characters that are not whitespace |
| LivePlayground.LowerStripCommute | src/components/LivePlayground.jsx:27 | lower-casing and whitespace removal commute |
| LivePlayground.CompactFixPasses | src/components/LivePlayground.jsx:27-29 | code containing the fixed snippet with its whitespace removed passes under every framework |
| LivePlayground.VerbatimFixCanFail | src/components/LivePlayground.jsx:27-29 | whitespace is stripped from the expected snippet only, so pasting `<li key={id}>` verbatim fails under Svelte and React |
| LivePlayground.Playground.constructor | src/components/LivePlayground.jsx:9-22 | React selected, the broken code loaded, status idle, no feedback |
| LivePlayground.Playground.SetFramework | src/components/LivePlayground.jsx:20-22 | a different framework reloads its starter; the same one changes nothing |
| LivePlayground.Playground.SetMistake | src/components/LivePlayground.jsx:20-22 | a different mistake reloads the current framework's starter |
| LivePlayground.Playground.Edit | src/components/LivePlayground.jsx:87 | typing replaces the code only |
| LivePlayground.Playground.ResetSource | src/components/LivePlayground.jsx:80 | the current framework's starter is reloaded |
| LivePlayground.Playground.Run | src/components/LivePlayground.jsx:24-25 | the status becomes testing and the code, snippet and framework are captured; ignored while testing (line 99) |
| LivePlayground.Playground.RunTimerFires | src/components/LivePlayground.jsx:26-38 | status success or fail by the pass check on the captured run, each with its fixed message |
| LivePlayground.VueRoundTrip | src/components/LivePlayground.jsx:14-38 | switching to Vue and running the starter ends in success with the success message |
| ChallengeMode.Others | src/components/ChallengeMode.jsx:18-19 | exactly the catalog entries with another id |
| ChallengeMode.Distractors | src/components/ChallengeMode.jsx:21-22 | at most two distractors, each the fixed code of one of the shuffled other mistakes |
| ChallengeMode.OptionsShape | src/components/ChallengeMode.jsx:17-25 | the options hold the current fixed code, at most three entries, and every other entry is the fix of a mistake with a different id |
| ChallengeMode.Challenge.constructor | src/components/ChallengeMode.jsx:6-28 | level 0, no answer, score 0, playing, options of the first level |
| ChallengeMode.Challenge.HandleAnswer | src/components/ChallengeMode.jsx:30-39 | ignored once a truthy answer is recorded; otherwise correct iff equal to the current fixed code, adding 100 points and a 20 XP grant, wrong changes neither |
| ChallengeMode.Challenge.NextQuestion | src/components/ChallengeMode.jsx:41-48 | at level 4 or more the game finishes with a 100 XP grant; otherwise the level advances and the options effect resets options and answer (lines 17-28) |
| ChallengeMode.Challenge.TryAgain | src/components/ChallengeMode.jsx:74 | playing again at level 0 with score 0 |
| ChallengeMode.Challenge.FinalScore | src/components/ChallengeMode.jsx:36-48 | the score is a multiple of 100 between 0 and 500 |
| ChallengeMode.AnswerCorrectly | src/components/ChallengeMode.jsx:33-38 | answering the current fix first scores exactly 100 and grants 20 XP |
| ChallengeMode.SecondAnswerIgnored | src/components/ChallengeMode.jsx:30-32 | a second answer on the same level changes neither the answer nor the score |
| SimulatorState.FindId | src/hooks/useSimulatorState.js:11 | the index of the first entry with the id, or none when no entry has it |
| SimulatorState.Lookup | src/hooks/useSimulatorState.js:11 | the selected mistake is an entry with the id when one exists, otherwise the first entry |
| SimulatorState.LookupPicksFirst | src/hooks/useSimulatorState.js:11 | among entries sharing the id, the earliest is chosen |
| SimulatorState.Redirected | src/hooks/useSimulatorState.js:16 | the result is never "docs" or "analyzer", and is the old view or "simulator" |
| SimulatorState.RedirectIdempotent | src/hooks/useSimulatorState.js:16 | only "docs" and "analyzer" move, and redirecting twice equals once |
| SimulatorState.Session.constructor | src/hooks/useSimulatorState.js:5-11 | view "simulator", the first mistake selected, not fixed, mode "preview", score 0 |
| SimulatorState.Session.SelectMistake | src/hooks/useSimulatorState.js:13-17 | the id is stored, the fix is reset, the view is redirected, and a present id is what gets looked up |
| SimulatorState.Session.ToggleFix | src/hooks/useSimulatorState.js:19 | the fix flag is negated, nothing else changes |
| SimulatorState.Session.SetView | src/hooks/useSimulatorState.js:20 | only the view mode changes |
| SimulatorState.Session.UpdateScore | src/hooks/useSimulatorState.js:21 | the score grows by the points, nothing else changes |
| SimulatorState.Session.SetMainView | src/hooks/useSimulatorState.js:25 | only the main view changes |
| SimulatorState.ToggleTwice | src/hooks/useSimulatorState.js:19 | toggling twice restores the whole state |
| ProjectManager.Recorded | src/hooks/useProjectManager.js:13-16 | the list only grows at its end, by the selected project's id, exactly when the result is perfect and a project is selected |
| ProjectManager.ReplayRecordsAgain | src/hooks/useProjectManager.js:14 | finishing an already completed project again records its id a second time |
| ProjectManager.ImperfectRecordsNothing | src/hooks/useProjectManager.js:13 | an imperfect result or no selection records nothing |
| ProjectManager.Manager.constructor | src/hooks/useProjectManager.js:4-5 | no selection, no completions, no XP granted |
| ProjectManager.Manager.HandleProjectSelect | src/hooks/useProjectManager.js:7-10 | the project is stored and the view becomes "project-debug" |
| ProjectManager.Manager.HandleProjectComplete | src/hooks/useProjectManager.js:12-19 | records per `Recorded`, grants the result's XP under the same condition, always clears the selection and shows "projects" |
| ProjectManager.PlayThrough | src/hooks/useProjectManager.js:7-19 | select then a perfect completion records the card's id and grants its XP |
| SimulatorLayout.LogLine | src/components/SimulatorLayout.jsx:17-19 | an INFO line naming the mistake's id when fixed, a WARN line naming its title otherwise |
| SimulatorLayout.PushLog | src/components/SimulatorLayout.jsx:20 | the new line first, followed by the old lines, at most five in all |
| SimulatorLayout.ReplayKeepsNewest | src/components/SimulatorLayout.jsx:16-21 | after any sequence of log events the terminal holds the newest five lines, newest first |
| SimulatorLayout.Reviews | src/components/SimulatorLayout.jsx:33-37 | three reviews by Junior, Senior and Architect |
| SimulatorLayout.ReviewsFollowFix | src/components/SimulatorLayout.jsx:33-37 | each reviewer's comment differs between fixed and broken: the fix flag alone chooses it |
| SimulatorLayout.Screen.constructor | src/components/SimulatorLayout.jsx:11-21 | not deploying, no status, one log line from the mount effect |
| SimulatorLayout.Screen.LogEffect | src/components/SimulatorLayout.jsx:16-21 | the log becomes `PushLog` of the old log with the current line, never over five lines |
| SimulatorLayout.Screen.HandleShip | src/components/SimulatorLayout.jsx:23-25 | deploying starts, the status clears and the fix flag is captured; ignored while deploying (line 96) |
| SimulatorLayout.Screen.DeployFinishes | src/components/SimulatorLayout.jsx:26-29 | deploying ends with success iff the fix was on when ship was pressed |
| SimulatorLayout.Screen.Dismiss | src/components/SimulatorLayout.jsx:151 | the status is cleared |
| SimulatorLayout.ShipThenToggle | src/components/SimulatorLayout.jsx:23-29 | turning the fix off after pressing ship still reports success |
| ExplanationPanel.ImpactScores | src/components/ExplanationPanel.jsx:12-18 | any category containing "perf" gets High/Low/Medium; security is Critical iff "security" occurs without "perf"; a11y is Critical iff only "a11y" occurs; performance Medium iff no keyword occurs |
| ExplanationPanel.DefaultScores | src/components/ExplanationPanel.jsx:17 | with no keyword the scores are Medium/Low/Low |
| ExplanationPanel.SecurityCategoryIsCritical | src/components/ExplanationPanel.jsx:15 | the catalog's "Security & A11y" category gets security Critical and a11y Low |
| ExplanationPanel.PerformanceCategoryIsHigh | src/components/ExplanationPanel.jsx:14 | the "Performance" category gets High/Low/Medium |
| ExplanationPanel.CatalogNeverA11yCritical | src/components/ExplanationPanel.jsx:14-16 | no catalog category reaches the a11y-Critical branch |
| BugHunt.Marked | src/components/projects/TodoProject.jsx:84-88 | the id is present afterwards, nothing else is added, the old list is a prefix, and a list without repeats stays without repeats |
| BugHunt.MarkIdempotent | src/components/projects/TodoProject.jsx:84-88 | marking the same id twice equals marking it once |
| BugHunt.Ship | src/components/projects/TodoProject.jsx:90-101 | a completion exists iff the found count equals the checklist length, and it is perfect with all bugs counted and the project's XP |
| BugHunt.FoundBound | src/components/projects/TodoProject.jsx:84-88 | repeat-free found ids from the checklist number at most the checklist's length |
| BugHunt.ShippableMeansAllFound | src/components/projects/TodoProject.jsx:91 | when the counts match, every checklist bug has been found |
| BugHunt.ShipGateIsAllFound | src/components/projects/TodoProject.jsx:91 | the count-only gate opens iff every checklist bug is found |
| TodoProject.MatchesCard | src/components/projects/TodoProject.jsx:14-50 | five distinct bugs and 250 XP, as on the project card |
| TodoProject.ToggledTodos | src/components/projects/TodoProject.jsx:78-82 | `done` flips on todos with the id only; ids and texts stay |
| TodoProject.ToggleInvolution | src/components/projects/TodoProject.jsx:78-82 | toggling twice restores the list; an unknown id changes nothing |
| TodoProject.App.constructor | src/components/projects/TodoProject.jsx:6-11 | two seeded todos, empty input, nothing found |
| TodoProject.App.SetInput | src/components/projects/TodoProject.jsx:198 | typing replaces the input only |
| TodoProject.App.AddTodo | src/components/projects/TodoProject.jsx:64-76 | whitespace-only input is ignored; otherwise a not-done todo with the clock value as id is appended and the input cleared |
| TodoProject.App.ToggleTodo | src/components/projects/TodoProject.jsx:78-82 | the list becomes `ToggledTodos` of the old list |
| TodoProject.App.MarkBugFound | src/components/projects/TodoProject.jsx:84-88 | the found list becomes `Marked`; it stays repeat-free and within the checklist |
| TodoProject.App.ShipToProduction | src/components/projects/TodoProject.jsx:90-101 | a completion of 5 of 5, 250 XP, perfect, exactly when all five bugs are found |
| CartProject.MatchesCard | src/components/projects/CartProject.jsx:13-56 | six distinct bugs and 400 XP, as on the project card |
| CartProject.NameLeqTotal | src/components/projects/CartProject.jsx:64 | any two names are comparable |
| CartProject.NameLeqTrans | src/components/projects/CartProject.jsx:64 | the name order is transitive |
| CartProject.InsertByName | src/components/projects/CartProject.jsx:64 | one insertion step extends the sorted prefix by one, permuting the array |
| CartProject.SortByName | src/components/projects/CartProject.jsx:64 | the array is sorted by name in place and is a permutation of what it held |
| CartProject.Requantified | src/components/projects/CartProject.jsx:73-78 | below one nothing changes; otherwise only the items with the id get the new quantity, with ids, names and prices unchanged |
| CartProject.RequantifiedKeepsPositive | src/components/projects/CartProject.jsx:73-78 | quantities stay at least one, and repeating an update changes nothing more |
| CartProject.Cart.constructor | src/components/projects/CartProject.jsx:6-10 | the two seeded items with positive quantities, nothing found |
| CartProject.Cart.SortedItems | src/components/projects/CartProject.jsx:64 | `sortedItems` is the state array itself, now sorted and a permutation of its old contents |
| CartProject.Cart.UpdateQuantity | src/components/projects/CartProject.jsx:73-78 | the items become `Requantified`; a new array only when the quantity is at least one |
| CartProject.Cart.MarkBugFound | src/components/projects/CartProject.jsx:84-88 | the found list becomes `Marked`; it stays repeat-free and within the checklist |
| CartProject.Cart.ShipToProduction | src/components/projects/CartProject.jsx:90-101 | a completion of 6 of 6, 400 XP, perfect, exactly when all six bugs are found |
| DashboardProject.MatchesCard | src/components/projects/DashboardProject.jsx:11-68 | eight distinct bugs and 600 XP, as on the project card |
| DashboardProject.CalculateStats | src/components/projects/DashboardProject.jsx:84-95 | users is the data length; the loop sums 0..99999, so revenue is that sum mod 10000, which is 0 |
| DashboardProject.Dashboard.constructor | src/components/projects/DashboardProject.jsx:6-7 | no data, nothing found |
| DashboardProject.Dashboard.ReceiveData | src/components/projects/DashboardProject.jsx:76-81 | the first five records are kept, and once any arrive no further fetch starts |
| DashboardProject.Dashboard.MarkBugFound | src/components/projects/DashboardProject.jsx:124-128 | the found list becomes `Marked`; it stays repeat-free and within the checklist |
| DashboardProject.Dashboard.ShipToProduction | src/components/projects/DashboardProject.jsx:130-141 | a completion of 8 of 8, 600 XP, perfect, exactly when all eight bugs are found |
| DashboardProject.StatsOfDashboard | src/components/projects/DashboardProject.jsx:80-96 | the dashboard reports at most five users and zero revenue |

## Left out

- The AI assistant and its service: network calls to a generative API and markdown rendering.
- The chaos hook: random faults on timers.
- Rendering-only components: header, documentation, settings, selectors, preview demos, HUD, code blocks, the editor wrapper, layout and routing. They hold no logic beyond display.
- Window dragging, drag constraints and maximizing: these are view-library and DOM concerns. The desktop stores no dragged position.
- Timers (`setTimeout` in the auditor, the playground and the deploy button) are modelled as a start step that captures what the callback reads, followed by a separate finishing step. The delays are not modelled.
- TimeTravel.History: each hook call is modelled as seeing the state of a fresh render. The source checks its guards against the `currentIndex` captured at render time but updates through `prev => prev ± 1` (src/hooks/useTimeTravel.js:8-21). So several calls batched in one event are not modelled: two `goBack()` calls at cursor 1 would leave the cursor at -1, and two `updateState` calls would leave it at the history's length.
- `Date.now()` (history timestamps, todo ids) is a `now` parameter.
- The quiz's random shuffles are parameters. They are constrained only to be permutations of the filtered list and of the option list.
- The quiz's options effect runs right after each level change, as part of `NextQuestion`, `TryAgain` and the constructor. Clicks between a level change and the effect are not modelled.
- CodeAnalyzer.Analyze: the conditional-hook rule's regular expression (`/if\s*\(.*\)\s*\{.*\s*(useEffect|…)/s`) is a boolean input `hookMatch`, not a regex engine.
- `toLowerCase` folds ASCII letters only.
- CartProject.NameLeqTotal: `localeCompare` is modelled as code-unit lexicographic order, not locale collation. Sort stability is not proved.
- `onAddXp` / `addXp` callbacks are modelled as a ledger of granted amounts plus a flag for whether a callback was passed.
- Floating point is not modelled: the cart total, the dashboard's `Math.floor(n * 0.7)` active count, and progress percentages. Cart prices are carried unchanged as reals.
- TodoProject.App.AddTodo: the push mutates the array React holds in state. The model appends to the list field; the aliasing, and React skipping a render for `setTodos(todos)`, are not modelled. The same render also clears the input, which re-renders anyway.
- The dashboard's fetch is not modelled. Its result is a parameter of `ReceiveData`, which applies the five-record cut.
- Console logging, alerts, intervals, event listeners and clipboard writes are not modelled.
- The catalog's prose (descriptions, links, code snippets) is static data and is not reproduced. Models that need the catalog take it as a non-empty parameter.
- The app's wiring (`useAppController.js`) is not part of this model. It passes the simulator's `addXp`, which the simulator hook does not return.
