/** The read-only queries of `TravelState` (src/models.py), as functions of the store's lists and
    maps, together with the id discipline the store keeps. */
module Queries {
  import opened Wrappers
  import opened Seqs
  import opened Entities

  // ---- item lists ----

  /** `get_venues`. */
  function Venues(items: seq<Item>): seq<Item> { Filter(IsVenue, items) }

  /** `get_documents`. */
  function Documents(items: seq<Item>): seq<Item> { Filter(IsDocument, items) }

  /** `get_flights`. */
  function Flights(items: seq<Item>): seq<Item> { Filter(IsFlight, items) }

  /** `get_official_documents`. */
  function OfficialDocuments(items: seq<Item>): seq<Item> { Filter(IsOfficialDocument, items) }

  /** `r` keeps some of the elements of `s`, in their order in `s`. */
  predicate IsSubsequence<T(==)>(r: seq<T>, s: seq<T>)
    decreases |s|
  {
    if r == [] then true
    else if s == [] then false
    else if r[0] == s[0] then IsSubsequence(r[1..], s[1..])
    else IsSubsequence(r, s[1..])
  }

  /** A filter keeps the order of the list it filters. */
  lemma {:induction false} FilterIsSubsequence<T>(p: T -> bool, s: seq<T>)
    ensures IsSubsequence(Filter(p, s), s)
  {
    if s != [] {
      FilterIsSubsequence(p, s[1..]);
      if !p(s[0]) {
        FilterMembers(p, s[1..]);
        assert Filter(p, s) == Filter(p, s[1..]);
      } else {
        assert Filter(p, s) == [s[0]] + Filter(p, s[1..]);
        assert Filter(p, s)[0] == s[0];
        assert Filter(p, s)[1..] == Filter(p, s[1..]);
      }
    }
  }

  /** A filter keeps exactly the elements that pass, in their order. */
  lemma FilterExactly<T>(p: T -> bool, s: seq<T>)
    ensures IsSubsequence(Filter(p, s), s)
    ensures forall x :: x in Filter(p, s) <==> x in s && p(x)
  {
    FilterIsSubsequence(p, s);
    FilterMembers(p, s);
    forall x | x in s && p(x) ensures x in Filter(p, s) {
      var i :| 0 <= i < |s| && s[i] == x;
    }
    forall x | x in Filter(p, s) ensures x in s && p(x) {
      var i :| 0 <= i < |Filter(p, s)| && Filter(p, s)[i] == x;
    }
  }

  /** The getters list exactly the items of their class, in store order. */
  lemma GettersAreOrderedFilters(items: seq<Item>)
    ensures IsSubsequence(Venues(items), items) && IsSubsequence(Documents(items), items)
    ensures IsSubsequence(Flights(items), items) && IsSubsequence(OfficialDocuments(items), items)
    ensures forall x :: x in Venues(items) <==> x in items && IsVenue(x)
    ensures forall x :: x in Documents(items) <==> x in items && IsDocument(x)
    ensures forall x :: x in Flights(items) <==> x in items && IsFlight(x)
    ensures forall x :: x in OfficialDocuments(items) <==> x in items && IsOfficialDocument(x)
  {
    FilterExactly(IsVenue, items);
    FilterExactly(IsDocument, items);
    FilterExactly(IsFlight, items);
    FilterExactly(IsOfficialDocument, items);
  }

  /** The position of the first item with id `id` (`get_item_by_id` returns the item there). */
  function FindById(items: seq<Item>, id: int): (r: Option<nat>)
    ensures r.Some? ==> r.value < |items| && items[r.value].id == id
                        && forall j :: 0 <= j < r.value ==> items[j].id != id
    ensures r.None? <==> forall j :: 0 <= j < |items| ==> items[j].id != id
  {
    if items == [] then None
    else if items[0].id == id then Some(0)
    else match FindById(items[1..], id)
      case None => None
      case Some(k) => Some(k + 1)
  }

  /** `get_item_by_id`. */
  function ItemById(items: seq<Item>, id: int): (r: Option<Item>)
    ensures r.Some? <==> exists j :: 0 <= j < |items| && items[j].id == id
    ensures r.Some? ==> r.value in items && r.value.id == id
  {
    match FindById(items, id)
    case None => None
    case Some(k) => Some(items[k])
  }

  // ---- ids ----

  /** Ids grow along the list, so no two items share one. */
  predicate IdsIncreasing(items: seq<Item>) {
    forall i, j :: 0 <= i < j < |items| ==> items[i].id < items[j].id
  }

  /** Every id was handed out before the counter reached `next`. */
  predicate IdsBelow(items: seq<Item>, next: int) {
    forall i :: 0 <= i < |items| ==> items[i].id < next
  }

  lemma IdsIncreasingCons(x: Item, rest: seq<Item>)
    requires IdsIncreasing(rest) && forall j :: 0 <= j < |rest| ==> x.id < rest[j].id
    ensures IdsIncreasing([x] + rest)
  {
    var f := [x] + rest;
    forall i, j | 0 <= i < j < |f| ensures f[i].id < f[j].id {
      assert f[j] == rest[j - 1];
      if i > 0 { assert f[i] == rest[i - 1]; }
    }
  }

  /** Any filter of the list keeps the ids increasing. */
  lemma {:induction false} FilterKeepsIncreasing(p: Item -> bool, items: seq<Item>)
    requires IdsIncreasing(items)
    ensures IdsIncreasing(Filter(p, items))
  {
    if items != [] {
      FilterKeepsIncreasing(p, items[1..]);
      var rest := Filter(p, items[1..]);
      FilterMembers(p, items[1..]);
      forall j | 0 <= j < |rest| ensures items[0].id < rest[j].id {
        var i :| 0 <= i < |items[1..]| && items[1..][i] == rest[j];
        assert items[i + 1] == rest[j];
      }
      if p(items[0]) {
        IdsIncreasingCons(items[0], rest);
      }
    }
  }

  /** Any filter of the list keeps the ids increasing and below the counter. */
  lemma FilterKeepsIds(p: Item -> bool, items: seq<Item>, next: int)
    requires IdsIncreasing(items) && IdsBelow(items, next)
    ensures IdsIncreasing(Filter(p, items)) && IdsBelow(Filter(p, items), next)
  {
    FilterKeepsIncreasing(p, items);
  }

  /** Removing one item keeps the ids increasing and below the counter. */
  lemma RemoveKeepsIds(items: seq<Item>, k: nat, next: int)
    requires k < |items| && IdsIncreasing(items) && IdsBelow(items, next)
    ensures IdsIncreasing(RemoveAt(items, k)) && IdsBelow(RemoveAt(items, k), next)
  {
    var r := RemoveAt(items, k);
    forall i, j | 0 <= i < j < |r| ensures r[i].id < r[j].id {
      var i' := if i < k then i else i + 1;
      var j' := if j < k then j else j + 1;
      assert r[i] == items[i'] && r[j] == items[j'];
    }
  }

  /** With increasing ids, the item found by id is the only one carrying it. */
  lemma UniqueIds(items: seq<Item>, id: int, j: nat)
    requires IdsIncreasing(items) && j < |items| && items[j].id == id
    ensures FindById(items, id) == Some(j)
  {
  }

  // ---- budget ----

  /** `get_total_spent`: the sum of the ledger amounts. */
  function TotalSpent(ledger: seq<BudgetEntry>): int {
    if ledger == [] then 0 else ledger[0].amount + TotalSpent(ledger[1..])
  }

  /** Appending an entry adds its amount to the total. */
  lemma {:induction false} TotalSpentAppend(ledger: seq<BudgetEntry>, e: BudgetEntry)
    ensures TotalSpent(ledger + [e]) == TotalSpent(ledger) + e.amount
  {
    if ledger != [] {
      assert (ledger + [e])[1..] == ledger[1..] + [e];
      TotalSpentAppend(ledger[1..], e);
    }
  }

  /** `m.budget or 0`. */
  function BudgetOf(m: Member): int { m.budget.GetOr(0) }

  /** Some member name of a non-empty map. */
  ghost function SomeName(members: map<string, Member>): (k: string)
    requires members != map[]
    ensures k in members
  {
    var k :| k in members; k
  }

  /** `get_total_budget`: the members' budgets summed, a missing budget counting as 0. */
  ghost function TotalBudget(members: map<string, Member>): int
    decreases |members|
  {
    if members == map[] then 0
    else
      var k := SomeName(members);
      assert (members - {k}).Keys < members.Keys;
      BudgetOf(members[k]) + TotalBudget(members - {k})
  }

  /** The total does not depend on the order in which members are visited. */
  lemma {:induction false} TotalBudgetRemove(members: map<string, Member>, k: string)
    requires k in members
    ensures TotalBudget(members) == BudgetOf(members[k]) + TotalBudget(members - {k})
    decreases |members|
  {
    var k' := SomeName(members);
    if k' != k {
      var rest := members - {k'};
      var both := members - {k} - {k'};
      assert |rest| < |members| by { assert rest.Keys < members.Keys; }
      TotalBudgetRemove(rest, k);
      assert rest - {k} == both;
      var rest2 := members - {k};
      assert |rest2| < |members| by { assert rest2.Keys < members.Keys; }
      TotalBudgetRemove(rest2, k');
      assert rest2 - {k'} == both;
    }
  }

  /** Summing the members after one is inserted under a new name. */
  lemma TotalBudgetInsert(members: map<string, Member>, k: string, m: Member)
    requires k !in members
    ensures TotalBudget(members[k := m]) == TotalBudget(members) + BudgetOf(m)
  {
    TotalBudgetRemove(members[k := m], k);
    assert members[k := m] - {k} == members;
  }
}
