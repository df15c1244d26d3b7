/**
  The multi-framework playground: a starter template per framework, a
  containment check that decides whether the edited code counts as fixed,
  and the idle -> testing -> success/fail status of a run.
 */
module LivePlayground {
  import opened Text
  import opened Catalog

  datatype Framework = React | Vue | Svelte

  datatype Status = Idle | Testing | Success | Fail

  const VUE_TEMPLATE: string :=
    "// Vue 3 Composition API\n<script setup>\nconst state = " + "reactive" +
    "({ data: [] });\n\n// Mutation Bug: \nconst add = () => {\n  state.data.push(item);\n};\n</script>"

  const SVELTE_TEMPLATE: string :=
    "// Svelte 5 Stores\n<script>\nlet data = [];\n\n// Mutation Bug:\nfunction add() {\n  data.push(item);\n  data = data;\n}\n</script>"

  const SUCCESS_FEEDBACK: string :=
    "Brilliant! Your optimization pattern is compatible with the target runtime."

  const FAIL_FEEDBACK: string :=
    "Runtime Alert: Reference integrity check failed. Source mutation detected."

  /** `getFrameworkCode`: the starter code shown for a framework. */
  function FrameworkCode(fw: Framework, brokenCode: string): (r: string)
    ensures fw == React ==> r == brokenCode
    ensures fw == Vue ==> Contains(r, "reactive")
  {
    match fw
    case Vue =>
      VueMentionsReactive();
      VUE_TEMPLATE
    case Svelte => SVELTE_TEMPLATE
    case React => brokenCode
  }

  lemma VueMentionsReactive()
    ensures Contains(VUE_TEMPLATE, "reactive")
  {
    ContainsAt("reactive", "reactive", 0);
    ContainsInConcat("// Vue 3 Composition API\n<script setup>\nconst state = ", "reactive",
      "({ data: [] });\n\n// Mutation Bug: \nconst add = () => {\n  state.data.push(item);\n};\n</script>",
      "reactive");
  }

  /** The check made when the run timer fires: the lower-cased code contains
      the lower-cased fixed snippet with its whitespace removed, or a React
      answer uses a spread, or a Vue answer uses `reactive`. */
  predicate Passes(code: string, fixedCode: string, fw: Framework)
  {
    || Contains(Lower(code), StripSpace(Lower(fixedCode)))
    || (Contains(code, "...") && fw == React)
    || (Contains(code, "reactive") && fw == Vue)
  }

  // ---------------------------------------------------------------------

  /** Running the Vue starter template unedited always passes. */
  lemma VueTemplatePasses(brokenCode: string, fixedCode: string)
    ensures Passes(FrameworkCode(Vue, brokenCode), fixedCode, Vue)
  {
    VueMentionsReactive();
  }

  /** Under Svelte only the fixed-snippet clause can succeed. */
  lemma SvelteNeedsTheFix(code: string, fixedCode: string)
    ensures Passes(code, fixedCode, Svelte) <==> Contains(Lower(code), StripSpace(Lower(fixedCode)))
  {
  }

  /** Lower-casing and whitespace removal commute (ASCII letters are never
      whitespace). */
  lemma {:induction false} LowerStripCommute(s: string)
    ensures Lower(StripSpace(s)) == StripSpace(Lower(s))
  {
    if s != [] {
      LowerStripCommute(s[1..]);
      assert Lower(s)[1..] == Lower(s[1..]);
      assert IsSpace(LowerChar(s[0])) <==> IsSpace(s[0]);
      if !IsSpace(s[0]) {
        assert Lower([s[0]] + StripSpace(s[1..])) == [LowerChar(s[0])] + Lower(StripSpace(s[1..]));
      }
    }
  }

  lemma LowerConcat(a: string, b: string, c: string)
    ensures Lower(a + b + c) == Lower(a) + Lower(b) + Lower(c)
  {
    assert Lower(a + b + c) == Lower(a) + Lower(b) + Lower(c) by {
      var l := Lower(a + b + c);
      var r := Lower(a) + Lower(b) + Lower(c);
      assert |l| == |r|;
      forall i | 0 <= i < |l|
        ensures l[i] == r[i]
      {
        if i < |a| {
        } else if i < |a| + |b| {
          assert (a + b + c)[i] == b[i - |a|];
        } else {
          assert (a + b + c)[i] == c[i - |a| - |b|];
        }
      }
    }
  }

  /** Code that contains the fixed snippet written without whitespace, in
      any letter case of the snippet's own, passes under every framework. */
  lemma CompactFixPasses(before: string, fixedCode: string, after: string, fw: Framework)
    ensures Passes(before + StripSpace(fixedCode) + after, fixedCode, fw)
  {
    var t := StripSpace(Lower(fixedCode));
    LowerStripCommute(fixedCode);
    LowerConcat(before, StripSpace(fixedCode), after);
    ContainsAt(t, t, 0);
    ContainsInConcat(Lower(before), t, Lower(after), t);
  }

  /** Whitespace is removed from the expected snippet only: pasting a fixed
      snippet that contains a space, verbatim, can fail. */
  lemma VerbatimFixCanFail(code: string)
    requires code == "<li key={id}>"
    ensures !Passes(code, code, Svelte)
    ensures !Passes(code, code, React)
  {
    CompactLiKey(code);
    var t := StripSpace(Lower(code));
    forall i | 0 <= i <= |code|
      ensures !OccursAt(Lower(code), t, i)
    {
      if i == 0 {
        assert code[3] != t[3];
      } else if i == 1 {
        assert code[1] != t[0];
      }
    }
    NotContainsByChar(code, "...", '.');
  }

  lemma CompactLiKey(code: string)
    requires code == "<li key={id}>"
    ensures Lower(code) == code
    ensures StripSpace(Lower(code)) == "<likey={id}>"
  {
    LowerLiKey(code);
    StripLiKey(code);
  }

  lemma LowerLiKey(code: string)
    requires code == "<li key={id}>"
    ensures Lower(code) == code
  {
    forall i | 0 <= i < |code|
      ensures Lower(code)[i] == code[i]
    {
      assert !('A' <= code[i] <= 'Z');
    }
  }

  lemma StripLiKey(code: string)
    requires code == "<li key={id}>"
    ensures StripSpace(code) == "<likey={id}>"
  {
    var head, tail := "<li", "key={id}>";
    NoSpaceIn(head);
    NoSpaceIn(tail);
    StripOneSpace(head, tail);
    assert code == head + " " + tail;
    assert head + tail == "<likey={id}>";
  }

  lemma NoSpaceIn(s: string)
    requires s == "<li" || s == "key={id}>"
    ensures forall i :: 0 <= i < |s| ==> !IsSpace(s[i])
  {
  }

  /** Removing the single space between two words joins them. */
  lemma StripOneSpace(head: string, tail: string)
    requires forall i :: 0 <= i < |head| ==> !IsSpace(head[i])
    requires forall i :: 0 <= i < |tail| ==> !IsSpace(tail[i])
    ensures StripSpace(head + " " + tail) == head + tail
  {
    assert StripSpace(head) == head && StripSpace(tail) == tail;
    assert StripSpace(" ") == [] by {
      assert IsSpace(" "[0]) && " "[1..] == [];
    }
    StripConcat(head, " ");
    StripConcat(head + " ", tail);
    assert StripSpace(head + " ") == head;
  }

  /** Whitespace removal distributes over concatenation. */
  lemma {:induction false} StripConcat(a: string, b: string)
    ensures StripSpace(a + b) == StripSpace(a) + StripSpace(b)
  {
    if a != [] {
      assert (a + b)[1..] == a[1..] + b;
      StripConcat(a[1..], b);
    } else {
      assert a + b == b;
    }
  }

  // ---------------------------------------------------------------------

  /** The playground's state. `runCode`, `runFixed` and `runFramework` are
      what the pending run timer captured when the run was started. */
  class Playground {
    var mistake: Mistake
    var framework: Framework
    var code: string
    var status: Status
    var feedback: string
    var runCode: string
    var runFixed: string
    var runFramework: Framework

    /** Each finished status carries its own message; before the first run
        there is none. */
    ghost predicate Valid()
      reads this
    {
      && (status == Idle ==> feedback == "")
      && (status == Success ==> feedback == SUCCESS_FEEDBACK)
      && (status == Fail ==> feedback == FAIL_FEEDBACK)
      && (status == Testing ==> feedback in {"", SUCCESS_FEEDBACK, FAIL_FEEDBACK})
    }

    /** Mounting: React is selected and the reset effect loads its template. */
    constructor (m: Mistake)
      ensures Valid()
      ensures mistake == m && framework == React && code == m.brokenCode
      ensures status == Idle && feedback == ""
    {
      mistake := m;
      framework := React;
      code := FrameworkCode(React, m.brokenCode);
      status := Idle;
      feedback := "";
      runCode, runFixed, runFramework := "", "", React;
    }

    /** Choosing a framework; when it differs from the current one the
        reset effect reloads the template. */
    method SetFramework(fw: Framework)
      requires Valid()
      modifies this
      ensures Valid()
      ensures framework == fw && mistake == old(mistake)
      ensures code == (if fw == old(framework) then old(code) else FrameworkCode(fw, mistake.brokenCode))
      ensures status == old(status) && feedback == old(feedback)
      ensures runCode == old(runCode) && runFixed == old(runFixed) && runFramework == old(runFramework)
    {
      if fw != framework {
        framework := fw;
        code := FrameworkCode(fw, mistake.brokenCode);
      }
    }

    /** A different mistake is shown; the reset effect reloads the template. */
    method SetMistake(m: Mistake)
      requires Valid()
      modifies this
      ensures Valid()
      ensures mistake == m && framework == old(framework)
      ensures code == (if m == old(mistake) then old(code) else FrameworkCode(framework, m.brokenCode))
      ensures status == old(status) && feedback == old(feedback)
      ensures runCode == old(runCode) && runFixed == old(runFixed) && runFramework == old(runFramework)
    {
      if m != mistake {
        mistake := m;
        code := FrameworkCode(framework, m.brokenCode);
      }
    }

    /** Typing into the editor. */
    method Edit(text: string)
      requires Valid()
      modifies this
      ensures Valid()
      ensures code == text
      ensures mistake == old(mistake) && framework == old(framework)
      ensures status == old(status) && feedback == old(feedback)
      ensures runCode == old(runCode) && runFixed == old(runFixed) && runFramework == old(runFramework)
    {
      code := text;
    }

    /** "Reset Source": reload the current framework's template. */
    method ResetSource()
      requires Valid()
      modifies this
      ensures Valid()
      ensures code == FrameworkCode(framework, mistake.brokenCode)
      ensures mistake == old(mistake) && framework == old(framework)
      ensures status == old(status) && feedback == old(feedback)
      ensures runCode == old(runCode) && runFixed == old(runFixed) && runFramework == old(runFramework)
    {
      code := FrameworkCode(framework, mistake.brokenCode);
    }

    /** Clicking run: ignored while a run is pending; otherwise the status
        becomes testing and the timer captures the current inputs. The old
        message stays until the timer fires. */
    method Run()
      requires Valid()
      modifies this
      ensures Valid()
      ensures status == Testing
      ensures old(status) == Testing ==>
        (runCode, runFixed, runFramework) == (old(runCode), old(runFixed), old(runFramework))
      ensures old(status) != Testing ==>
        (runCode, runFixed, runFramework) == (code, mistake.fixedCode, framework)
      ensures mistake == old(mistake) && framework == old(framework) && code == old(code)
      ensures feedback == old(feedback)
    {
      if status != Testing {
        status := Testing;
        runCode, runFixed, runFramework := code, mistake.fixedCode, framework;
      }
    }

    /** The run timer fires: success or failure, each with its message. */
    method RunTimerFires()
      requires Valid() && status == Testing
      modifies this
      ensures Valid()
      ensures status == (if Passes(runCode, runFixed, runFramework) then Success else Fail)
      ensures mistake == old(mistake) && framework == old(framework) && code == old(code)
      ensures runCode == old(runCode) && runFixed == old(runFixed) && runFramework == old(runFramework)
    {
      if Passes(runCode, runFixed, runFramework) {
        status := Success;
        feedback := SUCCESS_FEEDBACK;
      } else {
        status := Fail;
        feedback := FAIL_FEEDBACK;
      }
    }
  }

  /** Switching to Vue and running the template unedited succeeds. */
  method VueRoundTrip(p: Playground)
    requires p.Valid() && p.framework != Vue && p.status != Testing
    modifies p
    ensures p.Valid() && p.status == Success && p.feedback == SUCCESS_FEEDBACK
  {
    p.SetFramework(Vue);
    p.Run();
    VueTemplatePasses(p.mistake.brokenCode, p.runFixed);
    p.RunTimerFires();
  }
}
