/**
  The bug-hunt bookkeeping the three debugging projects share: a list of
  found bug ids that never holds an id twice, and a ship gate that reports
  a perfect completion only once every bug on the checklist is found. The
  project cards advertise each project's bug count and reward.
 */
module BugHunt {
  import opened Text

  /** What `onComplete` receives. */
  datatype Completion = Completion(bugsFound: nat, totalBugs: nat, xpEarned: int, perfectScore: bool)

  /** One project card. */
  datatype Card = Card(id: string, bugCount: nat, xpReward: int)

  const TODO_CARD := Card("todo-bugs", 5, 250)
  const CART_CARD := Card("cart-issues", 6, 400)
  const DASHBOARD_CARD := Card("dashboard-perf", 8, 600)
  const CARDS: seq<Card> := [TODO_CARD, CART_CARD, DASHBOARD_CARD]

  predicate NoDups<T(==)>(s: seq<T>)
  {
    forall i, j :: 0 <= i < j < |s| ==> s[i] != s[j]
  }

  /** `markBugFound`: append the id unless it is already there. */
  function Marked(found: seq<string>, bugId: string): (r: seq<string>)
    ensures bugId in r
    ensures forall x :: x in r <==> x in found || x == bugId
    ensures NoDups(found) ==> NoDups(r)
    ensures |found| <= |r| <= |found| + 1 && r[..|found|] == found
  {
    if bugId in found then found else found + [bugId]
  }

  /** Marking is idempotent. */
  lemma MarkIdempotent(found: seq<string>, bugId: string)
    ensures Marked(Marked(found, bugId), bugId) == Marked(found, bugId)
  {
  }

  /** `shipToProduction`: a perfect completion with the project's reward
      when the found count reaches the checklist length, otherwise none. */
  function Ship(found: seq<string>, checklist: seq<string>, xpReward: int): (r: Option<Completion>)
    ensures r.Some? <==> |found| == |checklist|
    ensures r.Some? ==> r.value.perfectScore && r.value.xpEarned == xpReward
    ensures r.Some? ==> r.value.bugsFound == r.value.totalBugs == |checklist|
  {
    if |found| == |checklist| then Some(Completion(|checklist|, |checklist|, xpReward, true)) else None
  }

  /** A list without repetitions has as many elements as its set. */
  lemma {:induction false} DistinctCard<T>(s: seq<T>)
    requires NoDups(s)
    ensures |set x | x in s| == |s|
  {
    if s != [] {
      var rest := s[1..];
      assert NoDups(rest) by {
        forall i, j | 0 <= i < j < |rest| ensures rest[i] != rest[j] {
          assert rest[i] == s[i + 1] && rest[j] == s[j + 1];
        }
      }
      DistinctCard(rest);
      assert s[0] !in rest by {
        forall k | 0 <= k < |rest| ensures rest[k] != s[0] {
          assert rest[k] == s[k + 1];
        }
      }
      assert (set x | x in s) == (set x | x in rest) + {s[0]} by {
        assert s == [s[0]] + rest;
      }
    }
  }

  /** A set of elements taken from a list is no larger than the list. */
  lemma {:induction false} SetOfListBound<T>(s: seq<T>, a: set<T>)
    requires forall x :: x in a ==> x in s
    ensures |a| <= |s|
  {
    if s != [] {
      var rest := s[1..];
      assert forall x :: x in a - {s[0]} ==> x in rest by {
        assert s == [s[0]] + rest;
      }
      SetOfListBound(rest, a - {s[0]});
    }
  }

  lemma {:induction false} SubsetCard<T>(a: set<T>, b: set<T>)
    requires a <= b
    ensures |a| <= |b|
    decreases a
  {
    if a != {} {
      var x :| x in a;
      SubsetCard(a - {x}, b - {x});
    }
  }

  /** Found ids come from the checklist and never repeat, so there are at
      most as many as checklist entries. */
  lemma FoundBound(found: seq<string>, checklist: seq<string>)
    requires NoDups(found) && forall x :: x in found ==> x in checklist
    ensures |found| <= |checklist|
  {
    DistinctCard(found);
    SetOfListBound(checklist, set x | x in found);
  }

  /** When the gate opens on a checklist without repetitions, every bug on
      it has been found. */
  lemma {:induction false} ShippableMeansAllFound(found: seq<string>, checklist: seq<string>)
    requires NoDups(found) && NoDups(checklist)
    requires forall x :: x in found ==> x in checklist
    requires |found| == |checklist|
    ensures forall b :: b in checklist ==> b in found
  {
    forall b | b in checklist
      ensures b in found
    {
      if b !in found {
        DistinctCard(found);
        DistinctCard(checklist);
        var a := set x | x in found;
        var c := set x | x in checklist;
        assert a <= c - {b};
        SubsetCard(a, c - {b});
      }
    }
  }

  /** The gate compares counts only, yet with found ids drawn from a
      checklist without repetitions it opens exactly when every bug on the
      checklist is found. */
  lemma ShipGateIsAllFound(found: seq<string>, checklist: seq<string>)
    requires NoDups(found) && NoDups(checklist)
    requires forall x :: x in found ==> x in checklist
    ensures |found| == |checklist| <==> forall b :: b in checklist ==> b in found
  {
    FoundBound(found, checklist);
    if |found| == |checklist| {
      ShippableMeansAllFound(found, checklist);
    } else if forall b :: b in checklist ==> b in found {
      DistinctCard(found);
      DistinctCard(checklist);
      SubsetCard(set b | b in checklist, set b | b in found);
    }
  }
}
