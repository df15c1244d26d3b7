/**
  The five-level quiz: each level shows one catalog mistake and offers its
  fixed code among at most two distractors; only the first answer of a
  level counts, a correct one scores 100 points, and the XP callback (when
  one is passed in) receives bonuses.
 */
module ChallengeMode {
  import opened Text
  import opened Catalog

  /** The catalog entries whose id differs from `id`, in catalog order. */
  function Others(ms: seq<Mistake>, id: string): (r: seq<Mistake>)
    ensures forall m :: m in r <==> m in ms && m.id != id
    ensures |r| <= |ms|
  {
    if ms == [] then []
    else (if ms[0].id != id then [ms[0]] else []) + Others(ms[1..], id)
  }

  /** The fixed code of the first two entries of the shuffled others: at
      most two distractors, each the fix of one of those entries. */
  function Distractors(shuffled: seq<Mistake>): (r: seq<string>)
    ensures |r| <= 2
    ensures forall o :: o in r ==> exists m :: m in shuffled && m.fixedCode == o
  {
    var n := if |shuffled| < 2 then |shuffled| else 2;
    seq(n, i requires 0 <= i < n => shuffled[i].fixedCode)
  }

  /** The shuffles are arbitrary permutations, given as inputs: `others` of
      the mistakes with another id, `options` of the distractors plus the
      right answer. */
  ghost predicate Shuffled(mistakes: seq<Mistake>, current: Mistake, others: seq<Mistake>,
                           options: seq<string>)
  {
    && multiset(others) == multiset(Others(mistakes, current.id))
    && multiset(options) == multiset(Distractors(others) + [current.fixedCode])
  }

  /** The options always hold the right answer, at most three entries in
      all, and every other entry is the fixed code of a mistake with a
      different id. */
  lemma OptionsShape(mistakes: seq<Mistake>, current: Mistake, others: seq<Mistake>,
                     options: seq<string>)
    requires Shuffled(mistakes, current, others, options)
    ensures current.fixedCode in options
    ensures |options| <= 3
    ensures forall o :: o in options ==>
      o == current.fixedCode || exists m :: m in mistakes && m.id != current.id && m.fixedCode == o
  {
    var pool := Distractors(others) + [current.fixedCode];
    assert current.fixedCode in multiset(pool);
    assert |options| == |multiset(options)| == |multiset(pool)| == |pool|;
    forall o | o in options
      ensures o == current.fixedCode || exists m :: m in mistakes && m.id != current.id && m.fixedCode == o
    {
      assert o in multiset(pool);
      if o != current.fixedCode {
        assert o in Distractors(others);
        var m :| m in others && m.fixedCode == o;
        assert m in multiset(Others(mistakes, current.id));
      }
    }
  }

  /** An answer locks the level once it is truthy (a non-empty string). */
  predicate Locked(selected: Option<string>)
  {
    selected.Some? && selected.value != ""
  }

  class Challenge {
    const mistakes: seq<Mistake>
    /** Whether an `onAddXp` callback was passed in. */
    const hasXpCallback: bool
    var step: nat
    var selected: Option<string>
    var isCorrect: Option<bool>
    var score: int
    var finished: bool
    var options: seq<string>
    /** The amounts passed to `onAddXp`, in order. */
    var xpGranted: seq<int>

    function Current(): Mistake
      reads this
      requires |mistakes| > 0
    {
      mistakes[step % |mistakes|]
    }

    /** Score is whole hundreds, at most one hundred per level reached and
        one more for a correct answer that locked the level. */
    ghost predicate Valid()
      reads this
    {
      && |mistakes| > 0
      && (forall m :: m in mistakes ==> m.fixedCode != "")
      && step <= 4
      && 0 <= score && score % 100 == 0
      && score <= 100 * step + (if Locked(selected) && isCorrect == Some(true) then 100 else 0)
    }

    /** Mounting, followed by the options effect for the first level. */
    constructor (mistakes: seq<Mistake>, hasXpCallback: bool, others: seq<Mistake>,
                 shuffledOptions: seq<string>)
      requires |mistakes| > 0 && forall m :: m in mistakes ==> m.fixedCode != ""
      requires Shuffled(mistakes, mistakes[0], others, shuffledOptions)
      ensures Valid()
      ensures this.mistakes == mistakes && this.hasXpCallback == hasXpCallback
      ensures step == 0 && selected == None && isCorrect == None && score == 0
      ensures !finished && options == shuffledOptions && xpGranted == []
    {
      this.mistakes := mistakes;
      this.hasXpCallback := hasXpCallback;
      step := 0;
      selected := None;
      isCorrect := None;
      score := 0;
      finished := false;
      options := shuffledOptions;
      xpGranted := [];
    }

    /** `handleAnswer`: ignored once the level is locked; otherwise the
        answer is recorded and judged against the current fixed code. */
    method HandleAnswer(answer: string)
      requires Valid()
      modifies this
      ensures Valid()
      ensures step == old(step) && finished == old(finished) && options == old(options)
      ensures old(Locked(selected)) ==>
        selected == old(selected) && isCorrect == old(isCorrect) && score == old(score) &&
        xpGranted == old(xpGranted)
      ensures !old(Locked(selected)) ==>
        var correct := answer == old(Current()).fixedCode;
        && selected == Some(answer) && isCorrect == Some(correct)
        && score == old(score) + (if correct then 100 else 0)
        && xpGranted == old(xpGranted) + (if correct && hasXpCallback then [20] else [])
    {
      if Locked(selected) {
        return;
      }
      selected := Some(answer);
      var correct := answer == Current().fixedCode;
      isCorrect := Some(correct);
      if correct {
        score := score + 100;
        if hasXpCallback {
          xpGranted := xpGranted + [20];
        }
      }
    }

    /** `nextQuestion`: after the fifth level the game ends with its bonus;
        otherwise the next level starts and the options effect builds its
        options and clears the selection. */
    method NextQuestion(others: seq<Mistake>, shuffledOptions: seq<string>)
      requires Valid()
      requires step < 4 ==> Shuffled(mistakes, mistakes[(step + 1) % |mistakes|], others, shuffledOptions)
      modifies this
      ensures Valid() && score == old(score)
      ensures old(step) >= 4 ==>
        && finished && step == old(step)
        && xpGranted == old(xpGranted) + (if hasXpCallback then [100] else [])
        && selected == old(selected) && isCorrect == old(isCorrect) && options == old(options)
      ensures old(step) < 4 ==>
        && step == old(step) + 1 && finished == old(finished) && xpGranted == old(xpGranted)
        && options == shuffledOptions && selected == None && isCorrect == None
    {
      if step >= 4 {
        finished := true;
        if hasXpCallback {
          xpGranted := xpGranted + [100];
        }
      } else {
        step := step + 1;
        options, selected, isCorrect := shuffledOptions, None, None;
      }
    }

    /** "Try Again": back to the first level with no score; when the level
        changes the options effect runs. */
    method TryAgain(others: seq<Mistake>, shuffledOptions: seq<string>)
      requires Valid()
      requires step != 0 ==> Shuffled(mistakes, mistakes[0], others, shuffledOptions)
      modifies this
      ensures Valid()
      ensures !finished && step == 0 && score == 0 && xpGranted == old(xpGranted)
      ensures old(step) != 0 ==> options == shuffledOptions && selected == None && isCorrect == None
      ensures old(step) == 0 ==>
        options == old(options) && selected == old(selected) && isCorrect == old(isCorrect)
    {
      if step != 0 {
        options, selected, isCorrect := shuffledOptions, None, None;
      }
      finished := false;
      step := 0;
      score := 0;
    }

    /** The final score is a multiple of 100 and at most 500. */
    function FinalScore(): (r: int)
      reads this
      requires Valid()
      ensures 0 <= r <= 500 && r % 100 == 0
    {
      score
    }
  }

  /** A correct first answer scores exactly 100 and grants 20 XP. */
  method AnswerCorrectly(c: Challenge)
    requires c.Valid() && !Locked(c.selected) && c.hasXpCallback
    modifies c
    ensures c.Valid() && c.score == old(c.score) + 100 && c.xpGranted == old(c.xpGranted) + [20]
    ensures c.isCorrect == Some(true)
  {
    c.HandleAnswer(c.Current().fixedCode);
  }

  /** A second click on the same level changes nothing. */
  method SecondAnswerIgnored(c: Challenge, first: string, second: string)
    requires c.Valid() && !Locked(c.selected) && first != ""
    modifies c
    ensures c.Valid() && c.selected == Some(first)
    ensures c.score == old(c.score) + (if first == old(c.Current()).fixedCode then 100 else 0)
  {
    c.HandleAnswer(first);
    c.HandleAnswer(second);
  }
}
