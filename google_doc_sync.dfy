/** `prepare_trip_data` (src/google_doc_sync.py): the snapshot of the store that is published to
    the shared document. The status bookkeeping of `sync_to_google_doc` lives with the store
    (`Store.TravelState.RunSyncBegin` / `RunSyncEnd`), since it updates the store's fields. */
module DocSync {
  import opened Wrappers
  import opened Seqs
  import opened Text
  import opened Json
  import opened Entities
  import opened Queries
  import Codec

  /** One entry of `all_comments`: a comment with the id and title of its item. */
  datatype CommentRecord = CommentRecord(itemId: int, itemTitle: string, user: string,
                                         text: string, timestamp: string)

  /** The published snapshot. Item lists hold the items whose `to_dict` is published
      (`Codec.ItemRoundTrip` shows that encoding loses nothing). */
  datatype TripData = TripData(
    trip: map<string, Value>,
    officialVenues: seq<Item>, officialDocs: seq<Item>,
    allVenues: seq<Item>, allFlights: seq<Item>, allDocs: seq<Item>,
    recentComments: seq<CommentRecord>,
    totalBudget: Option<int>, totalSpent: int, entries: seq<BudgetEntry>,
    totalItems: int, venuesCount: int, flightsCount: int, docsCount: int, officialCount: int)

  /** Published venues are capped at this many. */
  const TopVenues := 10
  /** Published comments are capped at this many. */
  const RecentCommentCount := 20

  function Record(x: Item, c: Comment): CommentRecord {
    CommentRecord(x.id, x.title, c.user, c.text, c.timestamp)
  }

  /** The records of one item's comments, in comment order. */
  function ItemRecords(x: Item): (r: seq<CommentRecord>)
    ensures |r| == |x.comments|
    ensures forall j :: 0 <= j < |r| ==> r[j] == Record(x, x.comments[j])
  {
    seq(|x.comments|, j requires 0 <= j < |x.comments| => Record(x, x.comments[j]))
  }

  /** The records of every comment, item by item. */
  function Flatten(items: seq<Item>): seq<CommentRecord> {
    if items == [] then [] else Flatten(items[..|items| - 1]) + ItemRecords(items[|items| - 1])
  }

  /** The number of comments across all items. */
  function CommentCount(items: seq<Item>): nat {
    if items == [] then 0 else CommentCount(items[..|items| - 1]) + |items[|items| - 1].comments|
  }

  /** There is one record per comment, and every comment has its record. */
  lemma {:induction false} FlattenRecordsEveryComment(items: seq<Item>)
    ensures |Flatten(items)| == CommentCount(items)
    ensures forall i, j :: 0 <= i < |items| && 0 <= j < |items[i].comments| ==>
              Record(items[i], items[i].comments[j]) in Flatten(items)
  {
    if items != [] {
      var init := items[..|items| - 1];
      var last := items[|items| - 1];
      FlattenRecordsEveryComment(init);
      forall i, j | 0 <= i < |items| && 0 <= j < |items[i].comments|
        ensures Record(items[i], items[i].comments[j]) in Flatten(items)
      {
        if i < |items| - 1 {
          assert items[i] == init[i];
          assert Record(items[i], items[i].comments[j]) in Flatten(init);
        } else {
          assert ItemRecords(last)[j] == Record(items[i], items[i].comments[j]);
        }
      }
    }
  }

  // ---- sorting by timestamp, most recent first ----

  /** Timestamps do not increase along the list. */
  predicate SortedDesc(s: seq<CommentRecord>) {
    forall i, j :: 0 <= i < j < |s| ==> LexLe(s[j].timestamp, s[i].timestamp)
  }

  /** Puts `c` before the first record that is not more recent, so earlier records stay first
      among equal timestamps. */
  function InsertDesc(c: CommentRecord, s: seq<CommentRecord>): (r: seq<CommentRecord>)
    ensures multiset(r) == multiset(s) + multiset{c}
  {
    if s == [] then [c]
    else if LexLe(s[0].timestamp, c.timestamp) then [c] + s
    else
      assert s == [s[0]] + s[1..];
      [s[0]] + InsertDesc(c, s[1..])
  }

  /** `sort(key=timestamp, reverse=True)`, a stable insertion sort. */
  function SortDesc(s: seq<CommentRecord>): (r: seq<CommentRecord>)
    ensures multiset(r) == multiset(s)
  {
    if s == [] then []
    else
      assert s == [s[0]] + s[1..];
      InsertDesc(s[0], SortDesc(s[1..]))
  }

  /** No record of `s` is more recent than `t`. */
  predicate NoneAfter(s: seq<CommentRecord>, t: string) {
    forall j :: 0 <= j < |s| ==> LexLe(s[j].timestamp, t)
  }

  lemma NoneAfterInsert(c: CommentRecord, s: seq<CommentRecord>, t: string)
    requires NoneAfter(s, t) && LexLe(c.timestamp, t)
    ensures NoneAfter(InsertDesc(c, s), t)
  {
    var r := InsertDesc(c, s);
    forall j | 0 <= j < |r| ensures LexLe(r[j].timestamp, t) {
      assert r[j] in multiset(r);
      if r[j] != c {
        assert r[j] in multiset(s);
        var k :| 0 <= k < |s| && s[k] == r[j];
      }
    }
  }

  lemma SortedCons(c: CommentRecord, s: seq<CommentRecord>)
    requires SortedDesc(s) && NoneAfter(s, c.timestamp)
    ensures SortedDesc([c] + s)
  {
    var r := [c] + s;
    forall i, j | 0 <= i < j < |r| ensures LexLe(r[j].timestamp, r[i].timestamp) {
      assert r[j] == s[j - 1];
      if i > 0 { assert r[i] == s[i - 1]; }
    }
  }

  lemma {:induction false} InsertDescSorted(c: CommentRecord, s: seq<CommentRecord>)
    requires SortedDesc(s)
    ensures SortedDesc(InsertDesc(c, s))
  {
    if s == [] {
    } else if LexLe(s[0].timestamp, c.timestamp) {
      forall j | 0 <= j < |s| ensures LexLe(s[j].timestamp, c.timestamp) {
        if j > 0 { LexLeTrans(s[j].timestamp, s[0].timestamp, c.timestamp); }
      }
      SortedCons(c, s);
    } else {
      LexLeTotal(s[0].timestamp, c.timestamp);
      InsertDescSorted(c, s[1..]);
      assert NoneAfter(s[1..], s[0].timestamp);
      NoneAfterInsert(c, s[1..], s[0].timestamp);
      SortedCons(s[0], InsertDesc(c, s[1..]));
    }
  }

  /** The sort leaves the records most recent first. */
  lemma {:induction false} SortDescSorted(s: seq<CommentRecord>)
    ensures SortedDesc(SortDesc(s))
  {
    if s != [] {
      SortDescSorted(s[1..]);
      InsertDescSorted(s[0], SortDesc(s[1..]));
    }
  }

  // ---- the snapshot ----

  /** The trip's `to_dict`, or the placeholder used when there is no trip. */
  function TripInfo(trip: Option<Trip>): map<string, Value> {
    match trip
    case Some(t) => Codec.TripToDict(t)
    case None => map["name" := Str("New Trip"), "destination" := Str("TBD"), "dates" := Dict(map[])]
  }

  /** The value `prepare_trip_data` builds from the store's trip, items and ledger. */
  function Snapshot(trip: Option<Trip>, items: seq<Item>, ledger: seq<BudgetEntry>): TripData {
    var official := Filter(IsOfficial, items);
    var venues := Venues(items);
    var flights := Flights(items);
    var docs := Documents(items);
    TripData(
      TripInfo(trip),
      Filter(IsVenue, official), Filter(IsDocument, official),
      Take(venues, TopVenues), flights, docs,
      Take(SortDesc(Flatten(items)), RecentCommentCount),
      if trip.Some? then trip.value.totalBudget else None, TotalSpent(ledger), ledger,
      |items|, |venues|, |flights|, |docs|, |official|)
  }

  /** `prepare_trip_data`: gathers the comment records with a nested loop, sorts them and
      assembles the snapshot. */
  method PrepareTripData(trip: Option<Trip>, items: seq<Item>, ledger: seq<BudgetEntry>)
    returns (d: TripData)
    ensures d == Snapshot(trip, items, ledger)
  {
    var all: seq<CommentRecord> := [];
    var i := 0;
    while i < |items|
      invariant 0 <= i <= |items|
      invariant all == Flatten(items[..i])
    {
      var x := items[i];
      var j := 0;
      while j < |x.comments|
        invariant 0 <= j <= |x.comments|
        invariant all == Flatten(items[..i]) + ItemRecords(x)[..j]
      {
        all := all + [Record(x, x.comments[j])];
        j := j + 1;
      }
      assert ItemRecords(x)[..j] == ItemRecords(x);
      assert items[..i + 1][..i] == items[..i];
      i := i + 1;
    }
    assert items[..|items|] == items;
    var official := Filter(IsOfficial, items);
    var venues := Venues(items);
    var flights := Flights(items);
    var docs := Documents(items);
    d := TripData(
      TripInfo(trip),
      Filter(IsVenue, official), Filter(IsDocument, official),
      Take(venues, TopVenues), flights, docs,
      Take(SortDesc(all), RecentCommentCount),
      if trip.Some? then trip.value.totalBudget else None, TotalSpent(ledger), ledger,
      |items|, |venues|, |flights|, |docs|, |official|);
  }

  /** The official lists hold exactly the official venues and the official documents, in store
      order; the full lists are the class getters, venues capped at ten. */
  lemma SnapshotLists(trip: Option<Trip>, items: seq<Item>, ledger: seq<BudgetEntry>)
    ensures Snapshot(trip, items, ledger).officialVenues == Filter(IsOfficialVenue, items)
    ensures Snapshot(trip, items, ledger).officialDocs == OfficialDocuments(items)
    ensures Snapshot(trip, items, ledger).allVenues == Take(Venues(items), 10)
    ensures Snapshot(trip, items, ledger).allFlights == Flights(items)
    ensures Snapshot(trip, items, ledger).allDocs == Documents(items)
  {
    FilterFilter(IsOfficial, IsVenue, IsOfficialVenue, items);
    FilterFilter(IsOfficial, IsDocument, IsOfficialDocument, items);
  }

  /** The counts are the lengths of the lists they describe and the total is the ledger sum. */
  lemma SnapshotStats(trip: Option<Trip>, items: seq<Item>, ledger: seq<BudgetEntry>)
    ensures var d := Snapshot(trip, items, ledger);
      d.totalItems == |items| && d.venuesCount == |Venues(items)|
      && d.flightsCount == |d.allFlights| && d.docsCount == |d.allDocs|
      && d.officialCount == |Filter(IsOfficial, items)|
      && d.totalSpent == TotalSpent(ledger)
      && (trip.None? ==> d.totalBudget.None? && d.trip["name"] == Str("New Trip")
                         && d.trip["destination"] == Str("TBD") && d.trip["dates"] == Dict(map[]))
  {
  }

  /** The recent comments are the twenty most recent records, newest first: as many as there
      are comments up to twenty, each one a record of the store, and none older than a record
      left out. */
  lemma {:induction false} SnapshotRecentComments(trip: Option<Trip>, items: seq<Item>, ledger: seq<BudgetEntry>)
    ensures var recent := Snapshot(trip, items, ledger).recentComments;
      var sorted := SortDesc(Flatten(items));
      |recent| == Min(20, CommentCount(items))
      && SortedDesc(recent)
      && multiset(sorted) == multiset(Flatten(items))
      && recent == sorted[..|recent|]
      && (forall i, j :: 0 <= i < |recent| <= j < |sorted| ==>
            LexLe(sorted[j].timestamp, recent[i].timestamp))
  {
    var sorted := SortDesc(Flatten(items));
    FlattenRecordsEveryComment(items);
    SortDescSorted(Flatten(items));
    assert |sorted| == |Flatten(items)| by {
      assert |multiset(sorted)| == |multiset(Flatten(items))|;
    }
  }
}
