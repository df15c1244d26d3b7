/**
  The shopping-cart debugging project: quantity updates that build a new
  item array, a render-time sort by name that reorders the state array in
  place, and the shared bug-hunt checklist of six bugs worth 400 XP.
 */
module CartProject {
  import opened Text
  import opened BugHunt

  /** The price is carried along unchanged; totals are not modelled. */
  datatype Item = Item(id: int, name: string, price: real, quantity: int)

  const CHECKLIST: seq<string> :=
    ["floating-point", "sort-mutation", "missing-dependency", "expensive-render",
     "object-reference", "no-key-optimization"]
  const XP_REWARD: int := 400

  /** The checklist and reward agree with the project card. */
  lemma MatchesCard()
    ensures |CHECKLIST| == CART_CARD.bugCount && XP_REWARD == CART_CARD.xpReward
    ensures NoDups(CHECKLIST)
  {
  }

  // ---------------------------------------------------------------------
  // The name order: `localeCompare` taken as code-unit lexicographic order.

  predicate NameLeq(a: string, b: string)
  {
    a == [] || (b != [] && (a[0] < b[0] || (a[0] == b[0] && NameLeq(a[1..], b[1..]))))
  }

  lemma {:induction false} NameLeqTotal(a: string, b: string)
    ensures NameLeq(a, b) || NameLeq(b, a)
  {
    if a != [] && b != [] && a[0] == b[0] {
      NameLeqTotal(a[1..], b[1..]);
    }
  }

  lemma {:induction false} NameLeqTrans(a: string, b: string, c: string)
    requires NameLeq(a, b) && NameLeq(b, c)
    ensures NameLeq(a, c)
  {
    if a != [] && b != [] && c != [] && a[0] == b[0] && b[0] == c[0] {
      NameLeqTrans(a[1..], b[1..], c[1..]);
    }
  }

  predicate SortedByName(s: seq<Item>)
  {
    forall k, l :: 0 <= k < l < |s| ==> NameLeq(s[k].name, s[l].name)
  }

  /** Move `a[i]` left past every larger name; the prefix before it is
      already sorted. */
  method InsertByName(a: array<Item>, i: nat)
    requires i < a.Length && SortedByName(a[..i])
    modifies a
    ensures SortedByName(a[..i + 1])
    ensures multiset(a[..]) == multiset(old(a[..]))
  {
    var j := i;
    while j > 0 && !NameLeq(a[j - 1].name, a[j].name)
      invariant 0 <= j <= i
      invariant forall k, l :: 0 <= k < l <= i && k != j && l != j ==> NameLeq(a[k].name, a[l].name)
      invariant forall l :: j < l <= i ==> NameLeq(a[j].name, a[l].name)
      invariant multiset(a[..]) == multiset(old(a[..]))
    {
      NameLeqTotal(a[j - 1].name, a[j].name);
      a[j - 1], a[j] := a[j], a[j - 1];
      j := j - 1;
    }
    forall k | 0 <= k < j
      ensures NameLeq(a[k].name, a[j].name)
    {
      if k < j - 1 {
        NameLeqTrans(a[k].name, a[j - 1].name, a[j].name);
      }
    }
  }

  /** `items.sort((a, b) => a.name.localeCompare(b.name))`, in place. */
  method SortByName(a: array<Item>)
    modifies a
    ensures SortedByName(a[..])
    ensures multiset(a[..]) == multiset(old(a[..]))
  {
    var i := 0;
    while i < a.Length
      invariant 0 <= i <= a.Length
      invariant SortedByName(a[..i])
      invariant multiset(a[..]) == multiset(old(a[..]))
    {
      InsertByName(a, i);
      i := i + 1;
    }
    assert a[..a.Length] == a[..];
  }

  // ---------------------------------------------------------------------
  // Cart state.

  predicate PositiveQuantities(s: seq<Item>)
  {
    forall i :: 0 <= i < |s| ==> s[i].quantity >= 1
  }

  /** `updateQuantity`: below one nothing changes; otherwise the items with
      the id get the new quantity, and ids, names and prices stay. */
  function Requantified(items: seq<Item>, id: int, q: int): (r: seq<Item>)
    ensures q < 1 ==> r == items
    ensures |r| == |items|
    ensures forall i :: 0 <= i < |r| ==>
      && r[i].id == items[i].id && r[i].name == items[i].name && r[i].price == items[i].price
      && r[i].quantity == if q >= 1 && items[i].id == id then q else items[i].quantity
  {
    if q < 1 then
      items
    else
      seq(|items|, i requires 0 <= i < |items| =>
        if items[i].id == id then items[i].(quantity := q) else items[i])
  }

  /** Quantity updates keep every quantity at least one, and repeating an
      update changes nothing more. */
  lemma RequantifiedKeepsPositive(items: seq<Item>, id: int, q: int)
    requires PositiveQuantities(items)
    ensures PositiveQuantities(Requantified(items, id, q))
    ensures Requantified(Requantified(items, id, q), id, q) == Requantified(items, id, q)
  {
    var once := Requantified(items, id, q);
    var twice := Requantified(once, id, q);
    assert forall i :: 0 <= i < |items| ==> twice[i] == once[i];
  }

  class Cart {
    var items: array<Item>
    var bugsFound: seq<string>

    ghost predicate Valid()
      reads this, items
    {
      && PositiveQuantities(items[..])
      && NoDups(bugsFound) && forall b :: b in bugsFound ==> b in CHECKLIST
    }

    constructor ()
      ensures Valid() && bugsFound == []
      ensures items[..] == [Item(1, "React Book", 29.99, 1), Item(2, "JavaScript Course", 49.99, 2)]
    {
      items := new Item[2] [Item(1, "React Book", 29.99, 1), Item(2, "JavaScript Course", 49.99, 2)];
      bugsFound := [];
    }

    /** The render's `sortedItems`: the state array itself, now sorted. */
    method SortedItems() returns (sorted: array<Item>)
      requires Valid()
      modifies items
      ensures Valid() && sorted == items
      ensures SortedByName(items[..]) && multiset(items[..]) == multiset(old(items[..]))
    {
      SortByName(items);
      assert forall i :: 0 <= i < items.Length ==> items[i] in multiset(old(items[..]));
      sorted := items;
    }

    /** `updateQuantity`: a new array when the quantity is at least one. */
    method UpdateQuantity(id: int, q: int)
      requires Valid()
      modifies this
      ensures Valid() && items[..] == Requantified(old(items[..]), id, q)
      ensures q < 1 ==> items == old(items)
      ensures q >= 1 ==> fresh(items)
      ensures bugsFound == old(bugsFound)
    {
      if q < 1 {
        return;
      }
      var next := Requantified(items[..], id, q);
      RequantifiedKeepsPositive(items[..], id, q);
      items := new Item[|next|](i requires 0 <= i < |next| => next[i]);
      assert items[..] == next;
    }

    /** "Mark Found" on checklist entry `k`. */
    method MarkBugFound(k: nat)
      requires Valid() && k < |CHECKLIST|
      modifies this
      ensures Valid() && bugsFound == Marked(old(bugsFound), CHECKLIST[k])
      ensures items == old(items)
    {
      bugsFound := Marked(bugsFound, CHECKLIST[k]);
    }

    /** `shipToProduction`: a completion only once all six bugs are found. */
    method ShipToProduction() returns (r: Option<Completion>)
      requires Valid()
      ensures r == Ship(bugsFound, CHECKLIST, XP_REWARD)
      ensures r.Some? <==> forall b :: b in CHECKLIST ==> b in bugsFound
      ensures r.Some? ==> r.value == Completion(6, 6, 400, true)
    {
      MatchesCard();
      ShipGateIsAllFound(bugsFound, CHECKLIST);
      if |bugsFound| == |CHECKLIST| {
        r := Some(Completion(|CHECKLIST|, |CHECKLIST|, XP_REWARD, true));
      } else {
        r := None;
      }
    }
  }
}
