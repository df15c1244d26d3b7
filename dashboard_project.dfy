/**
  The dashboard debugging project: user data kept to its first five
  records, a stats routine whose "expensive" loop sums 0 .. 99999, and the
  shared bug-hunt checklist of eight bugs worth 600 XP.
 */
module DashboardProject {
  import opened Text
  import opened BugHunt

  /** A fetched user record; only its presence matters to the dashboard. */
  datatype User = User(id: int, name: string)

  const CHECKLIST: seq<string> :=
    ["fetch-in-render", "infinite-loop", "inline-object", "expensive-calc",
     "layout-thrashing", "missing-cleanup", "unnecessary-effect", "console-in-prod"]
  const XP_REWARD: int := 600

  /** How many records the fetch keeps, and the loop's bound. */
  const KEPT: nat := 5
  const LOOP_BOUND: nat := 100000

  /** The checklist and reward agree with the project card. */
  lemma MatchesCard()
    ensures |CHECKLIST| == DASHBOARD_CARD.bugCount && XP_REWARD == DASHBOARD_CARD.xpReward
    ensures NoDups(CHECKLIST)
  {
  }

  /** The integer part of `calculateStats`: the user count and the revenue,
      `total % 10000` for the loop's total. */
  method CalculateStats(data: seq<User>) returns (users: nat, revenue: int)
    ensures users == |data|
    ensures revenue == (LOOP_BOUND * (LOOP_BOUND - 1) / 2) % 10000
    ensures revenue == 0
  {
    var total := 0;
    var i := 0;
    while i < LOOP_BOUND
      invariant 0 <= i <= LOOP_BOUND
      invariant 2 * total == i * (i - 1)
    {
      total := total + i;
      i := i + 1;
    }
    users := |data|;
    revenue := total % 10000;
  }

  class Dashboard {
    var data: seq<User>
    var bugsFound: seq<string>

    ghost predicate Valid()
      reads this
    {
      && |data| <= KEPT
      && NoDups(bugsFound) && forall b :: b in bugsFound ==> b in CHECKLIST
    }

    constructor ()
      ensures Valid() && data == [] && bugsFound == []
    {
      data := [];
      bugsFound := [];
    }

    /** Every render with no data starts another fetch. */
    predicate FetchesOnRender()
      reads this
    {
      |data| == 0
    }

    /** The fetch resolves: keep the first five records. */
    method ReceiveData(d: seq<User>)
      requires Valid()
      modifies this
      ensures Valid() && data == d[..if |d| < KEPT then |d| else KEPT]
      ensures bugsFound == old(bugsFound)
      ensures d != [] ==> !FetchesOnRender()
    {
      data := d[..if |d| < KEPT then |d| else KEPT];
    }

    /** "Mark Found" on checklist entry `k`. */
    method MarkBugFound(k: nat)
      requires Valid() && k < |CHECKLIST|
      modifies this
      ensures Valid() && bugsFound == Marked(old(bugsFound), CHECKLIST[k])
      ensures data == old(data)
    {
      bugsFound := Marked(bugsFound, CHECKLIST[k]);
    }

    /** `shipToProduction`: a completion only once all eight bugs are found. */
    method ShipToProduction() returns (r: Option<Completion>)
      requires Valid()
      ensures r == Ship(bugsFound, CHECKLIST, XP_REWARD)
      ensures r.Some? <==> forall b :: b in CHECKLIST ==> b in bugsFound
      ensures r.Some? ==> r.value == Completion(8, 8, 600, true)
    {
      MatchesCard();
      ShipGateIsAllFound(bugsFound, CHECKLIST);
      if |bugsFound| == |CHECKLIST| {
        r := Some(Completion(|CHECKLIST|, |CHECKLIST|, XP_REWARD, true));
      } else {
        r := None;
      }
    }
  }

  /** The stats of the dashboard's data report at most five users. */
  method StatsOfDashboard(db: Dashboard) returns (users: nat, revenue: int)
    requires db.Valid()
    ensures users <= KEPT && users == |db.data| && revenue == 0
  {
    users, revenue := CalculateStats(db.data);
  }
}
