/**
  The static code auditor: a fixed, ordered list of substring rules over
  the pasted code. Every rule that fires appends one finding and takes a
  fixed penalty off a score that starts at 100; the result is clamped at 0
  and mapped to a letter grade.
 */
module CodeAnalyzer {
  import opened Text

  datatype Severity = Error | Warning

  datatype Impact = Low | Medium | High

  datatype Finding = Finding(kind: Severity, title: string, impact: Impact)

  /** The rules, named after what they detect. */
  datatype Rule =
    | MissingKey          // 'map(' without 'key='
    | ConditionalHook     // a hook call inside an if block (regular expression)
    | StateMutation       // 'setState' together with '++'
    | UnmemoizedFilter    // 'filter(' without 'useMemo'
    | DangerousHtml       // 'dangerouslySetInnerHTML'
    | StaticZIndex        // 'z-index' without 'position'
    | ImportantHack       // '!important'
    | MissingAlt          // '<img' without 'alt='

  /** Position of a rule in the order the rules are tried. */
  function Rank(r: Rule): nat
  {
    match r
    case MissingKey => 0
    case ConditionalHook => 1
    case StateMutation => 2
    case UnmemoizedFilter => 3
    case DangerousHtml => 4
    case StaticZIndex => 5
    case ImportantHack => 6
    case MissingAlt => 7
  }

  function Penalty(r: Rule): nat
  {
    match r
    case MissingKey => 40
    case ConditionalHook => 50
    case StateMutation => 20
    case UnmemoizedFilter => 15
    case DangerousHtml => 30
    case StaticZIndex => 10
    case ImportantHack => 10
    case MissingAlt => 20
  }

  function FindingOf(r: Rule): Finding
  {
    match r
    case MissingKey => Finding(Error, "CRITICAL: Broken Reconciliation", High)
    case ConditionalHook => Finding(Error, "CRITICAL: Conditional Hook Call", High)
    case StateMutation => Finding(Error, "Direct State Mutation", Medium)
    case UnmemoizedFilter => Finding(Warning, "Performance: Unclaimed Memo", Medium)
    case DangerousHtml => Finding(Warning, "Security: XSS Vulnerability", High)
    case StaticZIndex => Finding(Error, "CSS Logic: Z-index Failure", Low)
    case ImportantHack => Finding(Warning, "Architecture: Specificity Hack", Low)
    case MissingAlt => Finding(Error, "A11y: Missing Alt Text", Medium)
  }

  /** Whether a rule fires on `code`. The conditional-hook rule is a
      regular expression whose outcome is passed in as `hookMatch`. */
  predicate Fires(r: Rule, code: string, hookMatch: bool)
  {
    match r
    case MissingKey => Contains(code, "map(") && !Contains(code, "key=")
    case ConditionalHook => hookMatch
    case StateMutation => Contains(code, "setState") && Contains(code, "++")
    case UnmemoizedFilter => Contains(code, "filter(") && !Contains(code, "useMemo")
    case DangerousHtml => Contains(code, "dangerouslySetInnerHTML")
    case StaticZIndex => Contains(code, "z-index") && !Contains(code, "position")
    case ImportantHack => Contains(code, "!important")
    case MissingAlt => Contains(code, "<img") && !Contains(code, "alt=")
  }

  function TotalPenalty(rs: seq<Rule>): nat
  {
    if rs == [] then 0 else TotalPenalty(rs[..|rs| - 1]) + Penalty(rs[|rs| - 1])
  }

  /** `Math.max(0, 100 - penalties)`. */
  function Score(fired: seq<Rule>): int
  {
    var raw := 100 - TotalPenalty(fired);
    if raw < 0 then 0 else raw
  }

  /** The finding of each fired rule, in order. */
  function Findings(rs: seq<Rule>): (r: seq<Finding>)
    ensures |r| == |rs|
    ensures forall i :: 0 <= i < |rs| ==> r[i] == FindingOf(rs[i])
  {
    if rs == [] then [] else Findings(rs[..|rs| - 1]) + [FindingOf(rs[|rs| - 1])]
  }

  function Opt(fires: bool, r: Rule): seq<Rule>
  {
    if fires then [r] else []
  }

  /** The rules that fire on `code`, in the order they are tried. */
  function Fired(code: string, hookMatch: bool): seq<Rule>
  {
    [] + Opt(Fires(MissingKey, code, hookMatch), MissingKey)
       + Opt(Fires(ConditionalHook, code, hookMatch), ConditionalHook)
       + Opt(Fires(StateMutation, code, hookMatch), StateMutation)
       + Opt(Fires(UnmemoizedFilter, code, hookMatch), UnmemoizedFilter)
       + Opt(Fires(DangerousHtml, code, hookMatch), DangerousHtml)
       + Opt(Fires(StaticZIndex, code, hookMatch), StaticZIndex)
       + Opt(Fires(ImportantHack, code, hookMatch), ImportantHack)
       + Opt(Fires(MissingAlt, code, hookMatch), MissingAlt)
  }

  /** The findings and running score correspond to the rules that fired. */
  ghost predicate Tracks(findings: seq<Finding>, current: int, done: seq<Rule>)
  {
    findings == Findings(done) && current == 100 - TotalPenalty(done)
  }

  /** One `if` of `analyzeCode`: when rule `r` fires on `code`, push its
      finding and subtract its penalty from the running score. */
  method Check(r: Rule, code: string, hookMatch: bool, findings: seq<Finding>, current: int,
               ghost done: seq<Rule>)
    returns (findings': seq<Finding>, current': int, ghost done': seq<Rule>)
    requires Tracks(findings, current, done)
    ensures done' == done + Opt(Fires(r, code, hookMatch), r)
    ensures Tracks(findings', current', done')
  {
    done' := done + Opt(Fires(r, code, hookMatch), r);
    if Fires(r, code, hookMatch) {
      findings' := findings + [FindingOf(r)];
      current' := current - Penalty(r);
      assert done'[..|done|] == done;
    } else {
      findings', current' := findings, current;
      assert done' == done;
    }
  }

  /** The body of `analyzeCode`'s timer: the rules in order, then the score
      clamped at 0. */
  method Analyze(code: string, hookMatch: bool) returns (findings: seq<Finding>, score: int)
    ensures findings == Findings(Fired(code, hookMatch))
    ensures score == Score(Fired(code, hookMatch))
    ensures 0 <= score <= 100
    ensures findings == [] <==> score == 100
  {
    findings := [];
    var current := 100;
    ghost var done: seq<Rule> := [];
    findings, current, done := Check(MissingKey, code, hookMatch, findings, current, done);
    findings, current, done := Check(ConditionalHook, code, hookMatch, findings, current, done);
    findings, current, done := Check(StateMutation, code, hookMatch, findings, current, done);
    findings, current, done := Check(UnmemoizedFilter, code, hookMatch, findings, current, done);
    findings, current, done := Check(DangerousHtml, code, hookMatch, findings, current, done);
    findings, current, done := Check(StaticZIndex, code, hookMatch, findings, current, done);
    findings, current, done := Check(ImportantHack, code, hookMatch, findings, current, done);
    findings, current, done := Check(MissingAlt, code, hookMatch, findings, current, done);
    score := if current < 0 then 0 else current;
    Clamped(findings, current, done);
  }

  /** Clamping the running score gives the score of the fired rules, and
      it is 100 exactly when nothing was found. */
  lemma Clamped(findings: seq<Finding>, current: int, fired: seq<Rule>)
    requires Tracks(findings, current, fired)
    ensures var score := if current < 0 then 0 else current;
      && score == Score(fired) && 0 <= score <= 100
      && (findings == [] <==> score == 100)
  {
    PenaltyPositive(fired);
  }

  /** Any fired rule costs something. */
  lemma {:induction false} PenaltyPositive(rs: seq<Rule>)
    ensures rs == [] <==> TotalPenalty(rs) == 0
  {
    if rs != [] {
      PenaltyPositive(rs[..|rs| - 1]);
    }
  }

  /** The letter grade `getScoreGrade` derives from the score. */
  datatype Grade = APlus | B | F

  function GradeOf(score: int): Grade
  {
    if score >= 90 then APlus else if score >= 70 then B else F
  }

  function GradeRank(g: Grade): nat
  {
    match g
    case F => 0
    case B => 1
    case APlus => 2
  }

  /** The grade bands, and a higher score never earns a lower grade. */
  lemma GradeBands(s: int, t: int)
    ensures GradeOf(s) == APlus <==> s >= 90
    ensures GradeOf(s) == B <==> 70 <= s < 90
    ensures GradeOf(s) == F <==> s < 70
    ensures s <= t ==> GradeRank(GradeOf(s)) <= GradeRank(GradeOf(t))
  {
  }

  // ---------------------------------------------------------------------

  /** `rs` lists rules in strictly increasing rank, all of rank below `k`. */
  ghost predicate FiredBelow(rs: seq<Rule>, k: nat)
  {
    && (forall i, j :: 0 <= i < j < |rs| ==> Rank(rs[i]) < Rank(rs[j]))
    && (forall i :: 0 <= i < |rs| ==> Rank(rs[i]) < k)
  }

  /** Trying the next rule extends the prefix by one rank. */
  lemma TryNext(rs: seq<Rule>, r: Rule, code: string, hookMatch: bool)
    requires FiredBelow(rs, Rank(r))
    ensures FiredBelow(rs + Opt(Fires(r, code, hookMatch), r), Rank(r) + 1)
  {
  }

  /** The findings come in the fixed rule order, each rule at most once
      (which rules are reported is `FiredMembers`). */
  lemma FiredInRuleOrder(code: string, hookMatch: bool)
    ensures var fired := Fired(code, hookMatch);
      && (forall i, j :: 0 <= i < j < |fired| ==> Rank(fired[i]) < Rank(fired[j]))
  {
    var rs: seq<Rule> := [];
    TryNext(rs, MissingKey, code, hookMatch);
    rs := rs + Opt(Fires(MissingKey, code, hookMatch), MissingKey);
    TryNext(rs, ConditionalHook, code, hookMatch);
    rs := rs + Opt(Fires(ConditionalHook, code, hookMatch), ConditionalHook);
    TryNext(rs, StateMutation, code, hookMatch);
    rs := rs + Opt(Fires(StateMutation, code, hookMatch), StateMutation);
    TryNext(rs, UnmemoizedFilter, code, hookMatch);
    rs := rs + Opt(Fires(UnmemoizedFilter, code, hookMatch), UnmemoizedFilter);
    TryNext(rs, DangerousHtml, code, hookMatch);
    rs := rs + Opt(Fires(DangerousHtml, code, hookMatch), DangerousHtml);
    TryNext(rs, StaticZIndex, code, hookMatch);
    rs := rs + Opt(Fires(StaticZIndex, code, hookMatch), StaticZIndex);
    TryNext(rs, ImportantHack, code, hookMatch);
    rs := rs + Opt(Fires(ImportantHack, code, hookMatch), ImportantHack);
    TryNext(rs, MissingAlt, code, hookMatch);
    rs := rs + Opt(Fires(MissingAlt, code, hookMatch), MissingAlt);
    assert rs == Fired(code, hookMatch);
  }

  /** A rule is reported exactly when its condition holds. */
  lemma FiredMembers(code: string, hookMatch: bool)
    ensures forall r :: r in Fired(code, hookMatch) <==> Fires(r, code, hookMatch)
  {
  }

  // ---------------------------------------------------------------------

  /** When exactly one rule fires, it is the only finding. */
  lemma OnlyOneFires(code: string, hookMatch: bool, r: Rule)
    requires forall x :: Fires(x, code, hookMatch) <==> x == r
    ensures Fired(code, hookMatch) == [r]
  {
    var fired := Fired(code, hookMatch);
    FiredMembers(code, hookMatch);
    FiredInRuleOrder(code, hookMatch);
    assert r in fired;
  }

  /** A single finding costs exactly its rule's penalty. */
  lemma ScoreOfOne(r: Rule)
    ensures Score([r]) == 100 - Penalty(r)
  {
    assert [r][..0] == [];
    assert TotalPenalty([]) == 0;
  }

  /** Pasting only the XSS sink costs 30 points: score 70, grade B. */
  lemma DangerousHtmlAloneIsB(code: string)
    requires code == "dangerouslySetInnerHTML"
    ensures Fired(code, false) == [DangerousHtml]
    ensures Score(Fired(code, false)) == 70 && GradeOf(Score(Fired(code, false))) == B
  {
    SinkFacts(code);
    SinkFactsMore(code);
    OnlyOneFires(code, false, DangerousHtml);
    ScoreOfOne(DangerousHtml);
  }

  lemma SinkFacts(code: string)
    requires code == "dangerouslySetInnerHTML"
    ensures !Contains(code, "map(") && !Contains(code, "++") && !Contains(code, "filter(")
    ensures Contains(code, "dangerouslySetInnerHTML")
  {
    NotContainsByChar(code, "map(", '(');
    NotContainsByChar(code, "++", '+');
    NotContainsByChar(code, "filter(", '(');
    ContainsAt(code, "dangerouslySetInnerHTML", 0);
  }

  lemma SinkFactsMore(code: string)
    requires code == "dangerouslySetInnerHTML"
    ensures !Contains(code, "z-index") && !Contains(code, "!important") && !Contains(code, "<img")
  {
    NotContainsByChar(code, "z-index", 'x');
    NotContainsByChar(code, "!important", 'p');
    NotContainsByChar(code, "<img", 'i');
  }

  /** A keyless list rendering loses 40 points: score 60, grade F. */
  lemma MissingKeyAloneIsF(code: string)
    requires code == "xs.map(f)"
    ensures Fired(code, false) == [MissingKey]
    ensures Score(Fired(code, false)) == 60 && GradeOf(Score(Fired(code, false))) == F
  {
    KeylessFacts(code);
    OnlyOneFires(code, false, MissingKey);
    ScoreOfOne(MissingKey);
  }

  lemma KeylessFacts(code: string)
    requires code == "xs.map(f)"
    ensures Contains(code, "map(") && !Contains(code, "key=") && !Contains(code, "++")
    ensures !Contains(code, "filter(") && !Contains(code, "dangerouslySetInnerHTML")
    ensures !Contains(code, "z-index") && !Contains(code, "!important") && !Contains(code, "<img")
  {
    assert code[3..7] == "map(";
    ContainsAt(code, "map(", 3);
    NotContainsByChar(code, "key=", 'k');
    NotContainsByChar(code, "++", '+');
    NotContainsByChar(code, "filter(", 'l');
    NotContainsByChar(code, "dangerouslySetInnerHTML", 'S');
    NotContainsByChar(code, "z-index", 'z');
    NotContainsByChar(code, "!important", '!');
    NotContainsByChar(code, "<img", '<');
  }

  /** A hook called inside an `if` block, and nothing else, loses 50
      points: score 50, grade F. */
  lemma ConditionalHookAloneIsF(code: string)
    requires code == "if(a){useState()}"
    ensures Fired(code, true) == [ConditionalHook]
    ensures Score(Fired(code, true)) == 50 && GradeOf(Score(Fired(code, true))) == F
  {
    HookFacts(code);
    HookFactsMore(code);
    OnlyOneFires(code, true, ConditionalHook);
    ScoreOfOne(ConditionalHook);
  }

  /** No substring rule fires on the hook example. */
  lemma HookFacts(code: string)
    requires code == "if(a){useState()}"
    ensures !Contains(code, "map(") && !Contains(code, "++") && !Contains(code, "filter(")
    ensures !Contains(code, "dangerouslySetInnerHTML")
  {
    assert !Contains(code, "map(") by { NotContainsByChar(code, "map(", 'm'); }
    assert !Contains(code, "++") by { NotContainsByChar(code, "++", '+'); }
    assert !Contains(code, "filter(") by { NotContainsByChar(code, "filter(", 'l'); }
    assert !Contains(code, "dangerouslySetInnerHTML") by {
      NotContainsByChar(code, "dangerouslySetInnerHTML", 'd');
    }
  }

  lemma HookFactsMore(code: string)
    requires code == "if(a){useState()}"
    ensures !Contains(code, "z-index") && !Contains(code, "!important") && !Contains(code, "<img")
  {
    assert !Contains(code, "z-index") by { NotContainsByChar(code, "z-index", 'z'); }
    assert !Contains(code, "!important") by { NotContainsByChar(code, "!important", '!'); }
    assert !Contains(code, "<img") by { NotContainsByChar(code, "<img", '<'); }
  }

  // ---------------------------------------------------------------------

  /** The scan button is enabled: the code is not blank and no scan runs. */
  predicate CanStart(code: string, isScanning: bool)
  {
    !Blank(code) && !isScanning
  }

  /** The auditor view's state. `scanned` is the code the pending timer
      captured when the scan was started. */
  class Auditor {
    var code: string
    var results: Option<seq<Finding>>
    var isScanning: bool
    var score: int
    var scanned: string

    ghost predicate Valid()
      reads this
    {
      && 0 <= score <= 100
      && (isScanning ==> results == None)
      && (results.Some? ==> (results.value == [] <==> score == 100))
    }

    constructor ()
      ensures Valid()
      ensures code == "" && results == None && !isScanning && score == 100
    {
      code := "";
      results := None;
      isScanning := false;
      score := 100;
      scanned := "";
    }

    /** Typing into the editor. */
    method Edit(text: string)
      requires Valid()
      modifies this
      ensures Valid()
      ensures code == text
      ensures results == old(results) && isScanning == old(isScanning)
      ensures score == old(score) && scanned == old(scanned)
    {
      code := text;
    }

    /** Clicking the scan button: ignored while disabled; otherwise the
        results are cleared and a scan of the current code is pending. */
    method ClickAnalyze()
      requires Valid()
      modifies this
      ensures Valid()
      ensures code == old(code) && score == old(score)
      ensures old(CanStart(code, isScanning)) ==>
        isScanning && results == None && scanned == old(code)
      ensures !old(CanStart(code, isScanning)) ==>
        isScanning == old(isScanning) && results == old(results) && scanned == old(scanned)
    {
      if CanStart(code, isScanning) {
        isScanning := true;
        results := None;
        scanned := code;
      }
    }

    /** The scan timer fires: the captured code is analysed. `hookMatch` is
        the outcome of the conditional-hook regular expression on it. */
    method TimerFires(hookMatch: bool)
      requires Valid() && isScanning
      modifies this
      ensures Valid() && !isScanning
      ensures results == Some(Findings(Fired(old(scanned), hookMatch)))
      ensures score == Score(Fired(old(scanned), hookMatch))
      ensures code == old(code) && scanned == old(scanned)
    {
      var findings, s := Analyze(scanned, hookMatch);
      score := s;
      results := Some(findings);
      isScanning := false;
    }

    function Grade(): Grade
      reads this
    {
      GradeOf(score)
    }
  }
}
