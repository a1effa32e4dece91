/** The batch rule of `!official <id> [id ...]` (`official_command`, src/main.py): every id that
    names an item marks the first item with that id as official; when that item is an
    accommodation (a Venue, or an airbnb/vrbo Document), every other official accommodation whose
    id is not in the batch loses its flag. Ids that name nothing are only reported.

    `AfterBatch` states the outcome position by position; `ApplyBatch` is the handler's nested
    loop, proved to meet it. */
module OfficialRule {
  import opened Wrappers
  import opened Entities
  import opened Queries

  predicate Found(items: seq<Item>, id: int) { FindById(items, id).Some? }

  /** Some id of `done` names an item that is an accommodation. */
  predicate FoundAccommodation(items: seq<Item>, done: seq<nat>) {
    exists id :: id in done && Found(items, id) && IsAccommodation(items[FindById(items, id).value])
  }

  /** Position `j` holds the first item with an id in `done`: the one the handler marks. */
  predicate MarkedBy(items: seq<Item>, done: seq<nat>, j: nat)
    requires j < |items|
  {
    items[j].id in done && FindById(items, items[j].id) == Some(j)
  }

  /** The flag of position `j` once the ids of `done` (a prefix of the batch `ids`) have been
      handled. */
  function OfficialFlag(items: seq<Item>, ids: seq<nat>, done: seq<nat>, j: nat): bool
    requires j < |items|
  {
    if MarkedBy(items, done, j) then true
    else if items[j].id !in ids && IsAccommodation(items[j]) && FoundAccommodation(items, done) then false
    else items[j].isOfficial
  }

  /** The items once the ids of `done` have been handled: only flags differ. */
  function AfterBatch(items: seq<Item>, ids: seq<nat>, done: seq<nat>): (r: seq<Item>)
    ensures |r| == |items|
  {
    seq(|items|, j requires 0 <= j < |items| => items[j].(isOfficial := OfficialFlag(items, ids, done, j)))
  }

  /** The ids of the batch that name an item, in batch order (duplicates kept). */
  function FoundIds(items: seq<Item>, ids: seq<nat>): seq<nat> {
    if ids == [] then []
    else FoundIds(items, ids[..|ids| - 1]) + (if Found(items, ids[|ids| - 1]) then [ids[|ids| - 1]] else [])
  }

  /** The ids of the batch that name nothing, in batch order. */
  function MissingIds(items: seq<Item>, ids: seq<nat>): seq<nat> {
    if ids == [] then []
    else MissingIds(items, ids[..|ids| - 1]) + (if Found(items, ids[|ids| - 1]) then [] else [ids[|ids| - 1]])
  }

  /** The inner loop's test for one other item. */
  function Demoted(ids: seq<nat>, x: Item): Item {
    if x.id !in ids && IsAccommodation(x) && x.isOfficial then x.(isOfficial := false) else x
  }

  /** `for other_item in state.items: ...`: clears the flag of every official accommodation
      whose id is not in the batch. */
  method DemoteOthers(items: seq<Item>, ids: seq<nat>) returns (r: seq<Item>)
    ensures |r| == |items|
    ensures forall j :: 0 <= j < |r| ==> r[j] == Demoted(ids, items[j])
  {
    r := items;
    var j := 0;
    while j < |r|
      invariant 0 <= j <= |r| == |items|
      invariant forall i :: 0 <= i < j ==> r[i] == Demoted(ids, items[i])
      invariant forall i :: j <= i < |r| ==> r[i] == items[i]
    {
      var other := r[j];
      if other.id !in ids && IsAccommodation(other) && other.isOfficial {
        r := r[j := other.(isOfficial := false)];
      }
      j := j + 1;
    }
  }

  /** Two lists with the same ids at every position find every id at the same place. */
  lemma {:induction false} FindByIdSameIds(a: seq<Item>, b: seq<Item>, id: int)
    requires |a| == |b| && forall j :: 0 <= j < |a| ==> a[j].id == b[j].id
    ensures FindById(a, id) == FindById(b, id)
  {
    if a != [] {
      FindByIdSameIds(a[1..], b[1..], id);
    }
  }

  /** Handling one more id `id` of the batch: nothing if it names no item; otherwise the
      demotion pass when the item is an accommodation, then the item's own flag. */
  lemma BatchStep(orig: seq<Item>, ids: seq<nat>, done: seq<nat>, id: nat)
    requires forall x :: x in done ==> x in ids
    requires id in ids
    ensures var cur := AfterBatch(orig, ids, done);
      var next := AfterBatch(orig, ids, done + [id]);
      (!Found(orig, id) ==> next == cur)
      && (Found(orig, id) ==>
            var k := FindById(orig, id).value;
            var d := if IsAccommodation(orig[k])
                     then seq(|cur|, j requires 0 <= j < |cur| => Demoted(ids, cur[j])) else cur;
            next == d[k := d[k].(isOfficial := true)])
  {
    if Found(orig, id) {
      BatchStepFound(orig, ids, done, id);
    } else {
      BatchStepMissing(orig, ids, done, id);
    }
  }

  /** An id naming nothing leaves the outcome as it was. */
  lemma BatchStepMissing(orig: seq<Item>, ids: seq<nat>, done: seq<nat>, id: nat)
    requires !Found(orig, id)
    ensures AfterBatch(orig, ids, done + [id]) == AfterBatch(orig, ids, done)
  {
    var cur := AfterBatch(orig, ids, done);
    var next := AfterBatch(orig, ids, done + [id]);
    forall j | 0 <= j < |orig| ensures next[j] == cur[j] {
      assert MarkedBy(orig, done + [id], j) == MarkedBy(orig, done, j);
      assert FoundAccommodation(orig, done + [id]) == FoundAccommodation(orig, done);
    }
  }

  /** An id naming an item: the demotion pass when it is an accommodation, then its own flag. */
  lemma BatchStepFound(orig: seq<Item>, ids: seq<nat>, done: seq<nat>, id: nat)
    requires forall x :: x in done ==> x in ids
    requires id in ids && Found(orig, id)
    ensures var cur := AfterBatch(orig, ids, done);
      var k := FindById(orig, id).value;
      var d := if IsAccommodation(orig[k])
               then seq(|cur|, j requires 0 <= j < |cur| => Demoted(ids, cur[j])) else cur;
      AfterBatch(orig, ids, done + [id]) == d[k := d[k].(isOfficial := true)]
  {
    var cur := AfterBatch(orig, ids, done);
    var next := AfterBatch(orig, ids, done + [id]);
    var k := FindById(orig, id).value;
    var acc := IsAccommodation(orig[k]);
    assert FoundAccommodation(orig, done + [id]) == (FoundAccommodation(orig, done) || acc);
    var d := if acc then seq(|cur|, j requires 0 <= j < |cur| => Demoted(ids, cur[j])) else cur;
    var e := d[k := d[k].(isOfficial := true)];
    forall j | 0 <= j < |orig| ensures next[j] == e[j] {
      if j != k {
        assert MarkedBy(orig, done + [id], j) == MarkedBy(orig, done, j);
      } else {
        assert MarkedBy(orig, done + [id], j);
      }
    }
  }

  /** `official_command`'s loop: the items afterwards, the ids it marked and those it did not
      find. */
  method ApplyBatch(items: seq<Item>, ids: seq<nat>)
    returns (r: seq<Item>, marked: seq<nat>, notFound: seq<nat>)
    ensures r == AfterBatch(items, ids, ids)
    ensures marked == FoundIds(items, ids) && notFound == MissingIds(items, ids)
  {
    r := items;
    marked := [];
    notFound := [];
    assert r == AfterBatch(items, ids, ids[..0]);
    var i := 0;
    while i < |ids|
      invariant 0 <= i <= |ids|
      invariant r == AfterBatch(items, ids, ids[..i])
      invariant marked == FoundIds(items, ids[..i]) && notFound == MissingIds(items, ids[..i])
    {
      var id := ids[i];
      assert ids[..i + 1] == ids[..i] + [id];
      assert ids[..i + 1][..i] == ids[..i];
      var found;
      r, found := HandleId(items, ids, ids[..i], r, id);
      if found {
        marked := marked + [id];
      } else {
        notFound := notFound + [id];
      }
      i := i + 1;
    }
    assert ids[..i] == ids;
  }

  /** One pass of the outer loop: the batch id `id` handled after the ids of `done`. */
  method HandleId(items: seq<Item>, ids: seq<nat>, ghost done: seq<nat>, r: seq<Item>, id: nat)
    returns (r': seq<Item>, found: bool)
    requires forall x :: x in done ==> x in ids
    requires id in ids
    requires r == AfterBatch(items, ids, done)
    ensures found == Found(items, id)
    ensures r' == AfterBatch(items, ids, done + [id])
  {
    BatchStep(items, ids, done, id);
    FindByIdSameIds(r, items, id);
    var k := FindById(r, id);
    found := k.Some?;
    r' := r;
    if found {
      if IsAccommodation(r[k.value]) {
        r' := DemoteOthers(r, ids);
      }
      r' := r'[k.value := r'[k.value].(isOfficial := true)];
    }
  }

  /** Every id of the batch that names an item leaves that item official. */
  lemma BatchMarksFound(items: seq<Item>, ids: seq<nat>, id: nat)
    requires id in ids && Found(items, id)
    ensures AfterBatch(items, ids, ids)[FindById(items, id).value].isOfficial
  {
    assert MarkedBy(items, ids, FindById(items, id).value);
  }

  /** An accommodation outside the batch loses its flag exactly when the batch names an
      accommodation; otherwise it keeps it. */
  lemma BatchDemotesOutside(items: seq<Item>, ids: seq<nat>, j: nat)
    requires j < |items| && items[j].id !in ids && IsAccommodation(items[j])
    ensures AfterBatch(items, ids, ids)[j].isOfficial
            == (items[j].isOfficial && !FoundAccommodation(items, ids))
  {
  }

  /** Items outside the batch that are not accommodations are left as they were. */
  lemma BatchSparesOthers(items: seq<Item>, ids: seq<nat>, j: nat)
    requires j < |items| && items[j].id !in ids && !IsAccommodation(items[j])
    ensures AfterBatch(items, ids, ids)[j] == items[j]
  {
  }

  /** A batch naming no accommodation clears no flag: it only sets those of the items it
      marks. */
  lemma BatchWithoutAccommodation(items: seq<Item>, ids: seq<nat>)
    requires !FoundAccommodation(items, ids)
    ensures forall j :: 0 <= j < |items| ==>
      AfterBatch(items, ids, ids)[j].isOfficial == (items[j].isOfficial || MarkedBy(items, ids, j))
  {
  }

  /** The id of a kept item is in `FoundIds` exactly when it is in the batch. */
  lemma {:induction false} FoundIdsMembers(items: seq<Item>, ids: seq<nat>)
    ensures forall x :: x in FoundIds(items, ids) <==> x in ids && Found(items, x)
  {
    if ids != [] {
      var init := ids[..|ids| - 1];
      FoundIdsMembers(items, init);
      assert ids == init + [ids[|ids| - 1]];
    }
  }

  /** Ids that name nothing change nothing: the batch behaves as the batch of its found ids. */
  lemma MissingIdsChangeNothing(items: seq<Item>, ids: seq<nat>)
    ensures AfterBatch(items, ids, ids) == AfterBatch(items, FoundIds(items, ids), FoundIds(items, ids))
  {
    var f := FoundIds(items, ids);
    FoundIdsMembers(items, ids);
    assert FoundAccommodation(items, ids) == FoundAccommodation(items, f);
    forall j | 0 <= j < |items|
      ensures (items[j].id in ids) == (items[j].id in f)
    {
      assert Found(items, items[j].id);
    }
  }

  /** With unique ids, a batch of one accommodation leaves it the only official
      accommodation. */
  lemma SingleAccommodationIsOnlyOfficial(items: seq<Item>, id: nat)
    requires IdsIncreasing(items)
    requires Found(items, id) && IsAccommodation(items[FindById(items, id).value])
    ensures var r := AfterBatch(items, [id], [id]);
      forall j :: 0 <= j < |r| && IsAccommodation(r[j]) && r[j].isOfficial ==> j == FindById(items, id).value
  {
    var k := FindById(items, id).value;
    assert FoundAccommodation(items, [id]);
    forall j | 0 <= j < |items| && items[j].id == id ensures j == k {
      UniqueIds(items, id, j);
    }
  }
}
