/**
  The simulator screen: a terminal log that keeps the five newest lines,
  newest first, a two-phase "ship" whose outcome is fixed when the button
  is pressed, and peer-review comments chosen by whether the fix is on.
 */
module SimulatorLayout {
  import opened Text
  import opened Catalog

  const INFO_HEAD: string := "[INFO] Optimized pattern for "
  const INFO_TAIL: string := " detected."
  const WARN_HEAD: string := "[WARN] Anti-pattern in "
  const WARN_TAIL: string := ". Re-render leak potential."

  /** The most lines the terminal keeps. */
  const LOG_CAPACITY: nat := 5

  /** A word surrounded by a fixed head and tail contains the word. */
  lemma Framed(head: string, word: string, tail: string)
    ensures Contains(head + word + tail, word)
  {
    var s := head + word + tail;
    assert s[|head|..|head| + |word|] == word;
    ContainsAt(s, word, |head|);
  }

  /** The line the effect logs: INFO naming the mistake's id when fixed,
      WARN naming its title when broken. */
  function LogLine(isFixed: bool, m: Mistake): (r: string)
    ensures Contains(r, if isFixed then m.id else m.title)
    ensures |r| > 1 && r[1] == if isFixed then 'I' else 'W'
  {
    if isFixed then
      Framed(INFO_HEAD, m.id, INFO_TAIL);
      INFO_HEAD + m.id + INFO_TAIL
    else
      Framed(WARN_HEAD, m.title, WARN_TAIL);
      WARN_HEAD + m.title + WARN_TAIL
  }

  function Min(a: int, b: int): int { if a < b then a else b }

  /** Prepend a line and keep the first five. */
  function PushLog(logs: seq<string>, line: string): (r: seq<string>)
    ensures |r| == Min(LOG_CAPACITY, |logs| + 1)
    ensures r[0] == line
    ensures forall i :: 1 <= i < |r| ==> r[i] == logs[i - 1]
  {
    ([line] + logs)[..Min(LOG_CAPACITY, |logs| + 1)]
  }

  function Reverse<T>(s: seq<T>): (r: seq<T>)
    ensures |r| == |s|
  {
    if s == [] then [] else [s[|s| - 1]] + Reverse(s[..|s| - 1])
  }

  /** The log after the given lines were pushed, in order, onto an empty
      log. */
  function Replay(lines: seq<string>): (r: seq<string>)
  {
    if lines == [] then [] else PushLog(Replay(lines[..|lines| - 1]), lines[|lines| - 1])
  }

  /** Whatever was logged, the terminal shows the newest five lines, newest
      first. */
  lemma {:induction false} ReplayKeepsNewest(lines: seq<string>)
    ensures Replay(lines) == Reverse(lines)[..Min(LOG_CAPACITY, |lines|)]
  {
    if lines != [] {
      var init := lines[..|lines| - 1];
      var last := lines[|lines| - 1];
      ReplayKeepsNewest(init);
      var before := Replay(init);
      var rev := Reverse(init);
      assert before == rev[..Min(LOG_CAPACITY, |init|)];
      assert Reverse(lines) == [last] + rev;
      var k := Min(LOG_CAPACITY, |lines|);
      assert Replay(lines) == ([last] + before)[..k];
      assert ([last] + before)[..k] == ([last] + rev)[..k] by {
        forall i | 0 <= i < k ensures ([last] + before)[i] == ([last] + rev)[i] {
          if i > 0 {
            assert before[i - 1] == rev[i - 1];
          }
        }
      }
    }
  }

  datatype DeployStatus = Success | Fail

  datatype Review = Review(role: string, comment: string)

  const ROLES: seq<string> := ["Junior", "Senior", "Architect"]
  const PRAISE: seq<string> :=
    ["This is clean, I can understand it!", "Solid production pattern. Approved.", "Standardized & Scalable. Good job."]
  const CRITIQUE: seq<string> :=
    ["It works for me, I dont see the issue.", "Memory leak risk. Rejected.", "Breaks core reconciliation. Critical fail."]

  /** The three peer reviews; only the fix state chooses their wording. */
  function Reviews(isFixed: bool): (r: seq<Review>)
    ensures |r| == 3
    ensures forall i :: 0 <= i < 3 ==> r[i].role == ROLES[i]
  {
    seq(3, i requires 0 <= i < 3 => Review(ROLES[i], if isFixed then PRAISE[i] else CRITIQUE[i]))
  }

  /** Every reviewer says something different once the fix is applied. */
  lemma ReviewsFollowFix(i: nat)
    requires i < 3
    ensures Reviews(true)[i].comment != Reviews(false)[i].comment
  {
    assert PRAISE[i][0] != CRITIQUE[i][0];
  }

  class Screen {
    var deploying: bool
    var deployStatus: Option<DeployStatus>
    var terminalLogs: seq<string>
    /** The fix state the pending deploy's timer captured. */
    var shippedFixed: bool

    ghost predicate Valid()
      reads this
    {
      |terminalLogs| <= LOG_CAPACITY && (deploying ==> deployStatus == None)
    }

    /** Mounting runs the log effect once. */
    constructor (isFixed: bool, mistake: Mistake)
      ensures Valid() && !deploying && deployStatus == None
      ensures terminalLogs == [LogLine(isFixed, mistake)]
    {
      deploying := false;
      deployStatus := None;
      terminalLogs := [LogLine(isFixed, mistake)];
      shippedFixed := false;
    }

    /** The log effect, run whenever the fix state or the mistake changes. */
    method LogEffect(isFixed: bool, mistake: Mistake)
      requires Valid()
      modifies this
      ensures Valid() && terminalLogs == PushLog(old(terminalLogs), LogLine(isFixed, mistake))
      ensures deploying == old(deploying) && deployStatus == old(deployStatus)
      ensures shippedFixed == old(shippedFixed)
    {
      terminalLogs := PushLog(terminalLogs, LogLine(isFixed, mistake));
    }

    /** `handleShip`; the button is disabled while a deploy runs. */
    method HandleShip(isFixed: bool)
      requires Valid()
      modifies this
      ensures Valid() && terminalLogs == old(terminalLogs)
      ensures old(deploying) ==>
        deploying && deployStatus == old(deployStatus) && shippedFixed == old(shippedFixed)
      ensures !old(deploying) ==> deploying && deployStatus == None && shippedFixed == isFixed
    {
      if deploying {
        return;
      }
      deploying := true;
      deployStatus := None;
      shippedFixed := isFixed;
    }

    /** The deploy timer fires: success exactly when the fix was on at the
        press. */
    method DeployFinishes()
      requires Valid() && deploying
      modifies this
      ensures Valid() && !deploying && terminalLogs == old(terminalLogs)
      ensures deployStatus == Some(if old(shippedFixed) then Success else Fail)
    {
      deploying := false;
      deployStatus := Some(if shippedFixed then Success else Fail);
    }

    /** "Dismiss Report". */
    method Dismiss()
      requires Valid()
      modifies this
      ensures Valid() && deployStatus == None
      ensures deploying == old(deploying) && terminalLogs == old(terminalLogs)
    {
      deployStatus := None;
    }
  }

  /** Pressing ship with the fix on, then turning the fix off before the
      timer fires, still reports success. */
  method ShipThenToggle(s: Screen, mistake: Mistake)
    requires s.Valid() && !s.deploying
    modifies s
    ensures s.Valid() && s.deployStatus == Some(Success)
  {
    s.HandleShip(true);
    s.LogEffect(false, mistake);
    s.DeployFinishes();
  }
}
