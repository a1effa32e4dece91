/** `TravelState` (src/models.py): the store of the trip, its members, the typed items with their
    id counter, the budget ledger, the venue cursor and the document-sync state, together with
    its persisted form.

    The state file is a field: `save` writes the encoded data into it and `load` reads it back.
    The sync lock and the pending flag are plain booleans; `_run_sync` is split at its one
    `await` into `RunSyncBegin` and `RunSyncEnd`, so that other calls can happen while a publish is
    in flight. */
module Store {
  import opened Wrappers
  import opened Seqs
  import opened Json
  import opened Entities
  import opened Queries
  import opened Codec
  import opened DocSync

  /** The persisted part of the store. */
  datatype StoreData = StoreData(trip: Option<Trip>, members: map<string, Member>,
                                 items: seq<Item>, nextItemId: int, ledger: seq<BudgetEntry>,
                                 venueIndex: int, syncConfig: SyncConfig)

  /** What the state file holds: nothing, something that is not JSON, or a JSON value. */
  datatype StateFile = Missing | Unreadable | Parsed(v: Value)

  /** The fields of a store that has not loaded anything yet. */
  const InitialData := StoreData(None, map[], [], 1, [], 0, DefaultSyncConfig)

  /** `_initialize_default_state`: everything but the sync configuration is reset. */
  function DefaultData(sync: SyncConfig): StoreData {
    StoreData(Some(NewTrip), map[], [], 1, [], 0, sync)
  }

  // ---- save ----

  function EncItems(items: seq<Item>): seq<Value> {
    if items == [] then [] else [Dict(ItemToDict(items[0]))] + EncItems(items[1..])
  }

  function EncEntries(ledger: seq<BudgetEntry>): seq<Value> {
    if ledger == [] then [] else [Dict(EntryToDict(ledger[0]))] + EncEntries(ledger[1..])
  }

  function EncMembers(members: map<string, Member>): map<string, Value> {
    map k | k in members :: Dict(MemberToDict(members[k]))
  }

  function EncTrip(trip: Option<Trip>): Value {
    match trip
    case Some(t) => Dict(TripToDict(t))
    case None => Null
  }

  /** The JSON document `save` writes. */
  function Persist(d: StoreData): Value {
    Dict(map["trip" := EncTrip(d.trip),
             "members" := Dict(EncMembers(d.members)),
             "items" := List(EncItems(d.items)),
             "next_item_id" := Int(d.nextItemId),
             "venue_pagination_index" := Int(d.venueIndex),
             "budget_ledger" := List(EncEntries(d.ledger)),
             "sync_config" := Dict(SyncToDict(d.syncConfig))])
  }

  /** The field under each key of the saved document. */
  lemma PersistFields(d: StoreData)
    ensures Persist(d).Dict?
    ensures var f := Persist(d).fields;
      && "trip" in f && f["trip"] == EncTrip(d.trip)
      && "members" in f && f["members"] == Dict(EncMembers(d.members))
      && "items" in f && f["items"] == List(EncItems(d.items))
      && "next_item_id" in f && f["next_item_id"] == Int(d.nextItemId)
      && "venue_pagination_index" in f && f["venue_pagination_index"] == Int(d.venueIndex)
      && "budget_ledger" in f && f["budget_ledger"] == List(EncEntries(d.ledger))
      && "sync_config" in f && f["sync_config"] == Dict(SyncToDict(d.syncConfig))
  {
  }

  // ---- load ----

  /** The elements `for x in v` visits, or `None` when iterating raises or yields values no
      decoder accepts (a non-empty string yields characters, a non-empty dict its keys). */
  function Elements(v: Value): Option<seq<Value>> {
    match v
    case List(es) => Some(es)
    case Str(s) => if s == "" then Some([]) else None
    case Dict(m) => if m == map[] then Some([]) else None
    case _ => None
  }

  /** `data.get(key, [])` iterated. */
  function ListField(d: map<string, Value>, key: string): Option<seq<Value>> {
    if key in d then Elements(d[key]) else Some([])
  }

  function DecodeItems(es: seq<Value>, now: string): Option<seq<Item>> {
    if es == [] then Some([])
    else if !es[0].Dict? then None
    else match (ItemFromDict(es[0].fields, now), DecodeItems(es[1..], now))
      case (Some(x), Some(rest)) => Some([x] + rest)
      case _ => None
  }

  function DecodeEntries(es: seq<Value>): Option<seq<BudgetEntry>> {
    if es == [] then Some([])
    else if !es[0].Dict? then None
    else match (EntryFromDict(es[0].fields), DecodeEntries(es[1..]))
      case (Some(e), Some(rest)) => Some([e] + rest)
      case _ => None
  }

  /** `Member.from_dict({**member_data, "name": name})`: the key is the member's name. */
  function MemberUnder(name: string, v: Value): Option<Member> {
    if v.Dict? then MemberFromDict(v.fields["name" := Str(name)]) else None
  }

  /** The `members` dict, every entry of which must decode. */
  function DecodeMembers(d: map<string, Value>): Option<map<string, Member>> {
    if "members" !in d then Some(map[])
    else if !d["members"].Dict? then None
    else
      var m := d["members"].fields;
      if forall k | k in m :: MemberUnder(k, m[k]).Some?
      then Some(map k | k in m :: MemberUnder(k, m[k]).value)
      else None
  }

  /** The trip after loading: kept when `"trip"` is missing or falsy, `None` when it raises. */
  function DecodeTrip(d: map<string, Value>, prev: Option<Trip>): Option<Option<Trip>> {
    if "trip" in d && Truthy(d["trip"]) then
      if d["trip"].Dict? then
        match TripFromDict(d["trip"].fields)
        case Some(t) => Some(Some(t))
        case None => None
      else None
    else Some(prev)
  }

  /** The sync configuration after loading: kept when absent, `None` when it raises. */
  function DecodeSync(d: map<string, Value>, prev: SyncConfig): Option<SyncConfig> {
    if "sync_config" !in d then Some(prev)
    else if d["sync_config"].Dict? then SyncFromDict(d["sync_config"].fields)
    else None
  }

  /** The body of `load`'s `try`: the new data, or `None` when some step raises. */
  function Decode(v: Value, prev: StoreData, now: string): Option<StoreData> {
    if !v.Dict? then None
    else
      var d := v.fields;
      var trip := DecodeTrip(d, prev.trip);
      var members := DecodeMembers(d);
      var ledger := if ListField(d, "budget_ledger").Some?
                    then DecodeEntries(ListField(d, "budget_ledger").value) else None;
      var items := if ListField(d, "items").Some?
                   then DecodeItems(ListField(d, "items").value, now) else None;
      var sync := DecodeSync(d, prev.syncConfig);
      if trip.Some? && members.Some? && ledger.Some? && items.Some? && sync.Some? then
        Some(StoreData(trip.value, members.value, items.value,
                       IntField(d, "next_item_id", 1), ledger.value,
                       IntField(d, "venue_pagination_index", 0), sync.value))
      else None
  }

  /** The data after `load`: the decoded file, or the default state when the file is missing
      or any step raises. */
  function Loaded(file: StateFile, prev: StoreData, now: string): (r: StoreData)
    ensures r.syncConfig == prev.syncConfig || (file.Parsed? && Decode(file.v, prev, now).Some?)
    ensures file.Missing? || file.Unreadable? ==> r == DefaultData(prev.syncConfig)
  {
    match file
    case Parsed(v) => if Decode(v, prev, now).Some? then Decode(v, prev, now).value else DefaultData(prev.syncConfig)
    case _ => DefaultData(prev.syncConfig)
  }

  lemma {:induction false} ItemsRoundTrip(items: seq<Item>, now: string)
    ensures DecodeItems(EncItems(items), now) == Some(items)
  {
    if items != [] {
      var e := EncItems(items);
      assert e[0] == Dict(ItemToDict(items[0])) && e[1..] == EncItems(items[1..]);
      ItemRoundTrip(items[0], now);
      ItemsRoundTrip(items[1..], now);
      DecodeItemsCons(e, now);
      assert [items[0]] + items[1..] == items;
    }
  }

  lemma DecodeItemsCons(es: seq<Value>, now: string)
    requires es != [] && es[0].Dict? && ItemFromDict(es[0].fields, now).Some?
    requires DecodeItems(es[1..], now).Some?
    ensures DecodeItems(es, now) == Some([ItemFromDict(es[0].fields, now).value] + DecodeItems(es[1..], now).value)
  {
  }

  lemma {:induction false} EntriesRoundTrip(ledger: seq<BudgetEntry>)
    ensures DecodeEntries(EncEntries(ledger)) == Some(ledger)
  {
    if ledger != [] {
      EntryRoundTrip(ledger[0]);
      EntriesRoundTrip(ledger[1..]);
      assert [ledger[0]] + ledger[1..] == ledger;
    }
  }

  lemma MemberUnderRoundTrip(k: string, m: Member)
    requires m.name == k
    ensures MemberUnder(k, Dict(MemberToDict(m))) == Some(m)
  {
    assert MemberToDict(m)["name" := Str(k)] == MemberToDict(m);
    MemberRoundTrip(m);
  }

  lemma MapsEqual<K, V>(a: map<K, V>, b: map<K, V>)
    requires a.Keys == b.Keys && forall k | k in a :: a[k] == b[k]
    ensures a == b
  {
  }

  /** Members stored under their own names survive save and load. */
  lemma MembersRoundTrip(members: map<string, Member>)
    requires forall k | k in members :: members[k].name == k
    ensures DecodeMembers(map["members" := Dict(EncMembers(members))]) == Some(members)
  {
    var m := EncMembers(members);
    assert m.Keys == members.Keys;
    forall k | k in m ensures MemberUnder(k, m[k]) == Some(members[k]) {
      MemberUnderRoundTrip(k, members[k]);
    }
    var r := map k | k in m :: MemberUnder(k, m[k]).value;
    assert r.Keys == members.Keys;
    MapsEqual(r, members);
    var d := map["members" := Dict(m)];
    assert "members" in d && d["members"].fields == m;
  }

  lemma PersistedTrip(d: StoreData, prev: Option<Trip>)
    requires d.trip.Some? || prev.None?
    ensures Persist(d).Dict? && DecodeTrip(Persist(d).fields, prev) == Some(d.trip)
  {
    PersistFields(d);
    if d.trip.Some? {
      TripRoundTrip(d.trip.value);
      assert "name" in TripToDict(d.trip.value);
    }
  }

  lemma PersistedMembers(d: StoreData)
    requires forall k | k in d.members :: d.members[k].name == k
    ensures Persist(d).Dict? && DecodeMembers(Persist(d).fields) == Some(d.members)
  {
    PersistFields(d);
    MembersRoundTrip(d.members);
    assert DecodeMembers(Persist(d).fields) == DecodeMembers(map["members" := Dict(EncMembers(d.members))]);
  }

  lemma PersistedLists(d: StoreData)
    ensures Persist(d).Dict?
    ensures ListField(Persist(d).fields, "budget_ledger") == Some(EncEntries(d.ledger))
    ensures ListField(Persist(d).fields, "items") == Some(EncItems(d.items))
  {
    PersistFields(d);
  }

  lemma PersistedScalars(d: StoreData, prev: SyncConfig)
    ensures Persist(d).Dict? && DecodeSync(Persist(d).fields, prev) == Some(d.syncConfig)
    ensures IntField(Persist(d).fields, "next_item_id", 1) == d.nextItemId
    ensures IntField(Persist(d).fields, "venue_pagination_index", 0) == d.venueIndex
  {
    PersistFields(d);
    SyncRoundTrip(d.syncConfig);
  }

  /** Loading what `save` wrote gives back the saved data, provided every member is stored under
      its own name and a saved `None` trip does not meet an already loaded trip (a `null` trip is
      skipped by `load`). */
  lemma {:induction false} LoadAfterSave(d: StoreData, prev: StoreData, now: string)
    requires forall k | k in d.members :: d.members[k].name == k
    requires d.trip.Some? || prev.trip.None?
    ensures Loaded(Parsed(Persist(d)), prev, now) == d
  {
    PersistedTrip(d, prev.trip);
    PersistedMembers(d);
    PersistedLists(d);
    PersistedScalars(d, prev.syncConfig);
    EntriesRoundTrip(d.ledger);
    ItemsRoundTrip(d.items, now);
    DecodeFromParts(Persist(d), prev, now, d);
  }

  /** `load` succeeds with `d` once every part of the document decodes to the part of `d`. */
  lemma DecodeFromParts(v: Value, prev: StoreData, now: string, d: StoreData)
    requires v.Dict?
    requires DecodeTrip(v.fields, prev.trip) == Some(d.trip)
    requires DecodeMembers(v.fields) == Some(d.members)
    requires ListField(v.fields, "budget_ledger").Some?
    requires DecodeEntries(ListField(v.fields, "budget_ledger").value) == Some(d.ledger)
    requires ListField(v.fields, "items").Some?
    requires DecodeItems(ListField(v.fields, "items").value, now) == Some(d.items)
    requires DecodeSync(v.fields, prev.syncConfig) == Some(d.syncConfig)
    requires IntField(v.fields, "next_item_id", 1) == d.nextItemId
    requires IntField(v.fields, "venue_pagination_index", 0) == d.venueIndex
    ensures Decode(v, prev, now) == Some(d)
  {
  }

  /** A failed load resets the store but keeps the sync configuration. */
  lemma FailedLoadKeepsSync(file: StateFile, prev: StoreData, now: string)
    requires !file.Parsed? || Decode(file.v, prev, now).None?
    ensures Loaded(file, prev, now) == DefaultData(prev.syncConfig)
  {
  }

  /** A state file in which one member's criteria hold a key naming a method or another class
      attribute of `FlightCriteria` raises while loading: the whole state goes back to the
      default. */
  lemma ClassAttrCriterionResetsState(v: Value, prev: StoreData, now: string, name: string, k: string)
    requires v.Dict? && "members" in v.fields && v.fields["members"].Dict?
    requires name in v.fields["members"].fields
    requires var m := v.fields["members"].fields[name];
      m.Dict? && "flight_criteria" in m.fields && m.fields["flight_criteria"].Dict?
      && k in m.fields["flight_criteria"].fields && IsCriteriaClassAttr(k)
    ensures Loaded(Parsed(v), prev, now) == DefaultData(prev.syncConfig)
  {
    var m := v.fields["members"].fields;
    var d := m[name].fields["name" := Str(name)];
    assert d["flight_criteria"] == m[name].fields["flight_criteria"];
    MemberClassAttrCriterionRaises(d, k);
    assert MemberUnder(name, m[name]).None?;
    assert DecodeMembers(v.fields).None?;
  }

  /** A file without a truthy `"trip"` leaves the trip as it was, so a fresh store loads no trip. */
  lemma MissingTripKeepsTrip(v: Value, prev: StoreData, now: string)
    requires v.Dict? && ("trip" !in v.fields || !Truthy(v.fields["trip"]))
    requires Decode(v, prev, now).Some?
    ensures Loaded(Parsed(v), prev, now).trip == prev.trip
  {
  }

  // ---- marking documents official ----

  /** Whether marking `doc` clears the flag of `other`. */
  predicate Unmarks(doc: Item, other: Item) {
    IsAccommodationDoc(doc) && IsAccommodationDoc(other) && other.id != doc.id
  }

  /** `other` after the un-marking loop run for `doc`. */
  function Unmarked(doc: Item, other: Item): Item {
    if Unmarks(doc, other) then other.(isOfficial := false) else other
  }

  /** The items after `mark_document_as_official` on the document at `k`: for an airbnb or vrbo
      document every other airbnb or vrbo document with a different id loses its flag; Venues
      and all other items keep theirs. */
  function MarkedDocument(items: seq<Item>, k: nat): (r: seq<Item>)
    requires k < |items|
    ensures |r| == |items|
  {
    seq(|items|, j requires 0 <= j < |items| =>
      if j == k then items[j].(isOfficial := true) else Unmarked(items[k], items[j]))
  }

  /** The loop of `mark_document_as_official` over the items, clearing flags in place. */
  method UnmarkOtherAccommodationDocs(items: seq<Item>, doc: Item) returns (r: seq<Item>)
    requires IsAccommodationDoc(doc)
    ensures |r| == |items|
    ensures forall j :: 0 <= j < |items| ==> r[j] == Unmarked(doc, items[j])
  {
    r := items;
    var i := 0;
    while i < |r|
      invariant 0 <= i <= |r| && |r| == |items|
      invariant forall j :: 0 <= j < i ==> r[j] == Unmarked(doc, items[j])
      invariant forall j :: i <= j < |r| ==> r[j] == items[j]
    {
      var item := r[i];
      if IsDocument(item) && IsAccommodationDocType(item.variant.docType) && item.id != doc.id {
        r := r[i := item.(isOfficial := false)];
      }
      i := i + 1;
    }
  }

  /** After marking an accommodation document, it is the only official accommodation document;
      with increasing ids no other document can share its id. */
  lemma MarkedDocumentIsOnlyOfficialDoc(items: seq<Item>, k: nat)
    requires k < |items| && IdsIncreasing(items) && IsAccommodationDoc(items[k])
    ensures MarkedDocument(items, k)[k].isOfficial
    ensures forall j :: 0 <= j < |items| && j != k && IsAccommodationDoc(items[j]) ==>
              !MarkedDocument(items, k)[j].isOfficial
  {
  }

  /** Marking a document touches no item except documents, and only their flags. */
  lemma MarkedDocumentSparesOthers(items: seq<Item>, k: nat)
    requires k < |items|
    ensures forall j :: 0 <= j < |items| && j != k && !IsAccommodationDoc(items[j]) ==>
              MarkedDocument(items, k)[j] == items[j]
    ensures forall j :: 0 <= j < |items| ==>
              MarkedDocument(items, k)[j].(isOfficial := items[j].isOfficial) == items[j]
    ensures !IsAccommodationDoc(items[k]) ==> MarkedDocument(items, k) == items[k := items[k].(isOfficial := true)]
  {
  }

  // ---- sync ----

  /** `_trigger_sync` does anything only when sync is enabled and a document URL is set. */
  predicate SyncEnabled(c: SyncConfig) {
    c.enabled && HasText(c.docUrl)
  }

  /** Where `RunSyncBegin` stopped: skipped because a sync holds the lock, nothing pending, no
      document URL, or publishing this snapshot to this URL with the lock held. */
  datatype SyncStep = Skipped | NothingPending | NoDocUrl | Publishing(url: string, data: TripData)

  /** How the publish ended: it raised, or it returned a result whose `success` is given. */
  datatype PublishOutcome = Raised | Returned(success: bool)

  class TravelState {
    var file: StateFile
    var trip: Option<Trip>
    var members: map<string, Member>
    var items: seq<Item>
    var nextItemId: int
    var budgetLedger: seq<BudgetEntry>
    var venuePaginationIndex: int
    var syncConfig: SyncConfig
    /** `_sync_lock.locked()`. */
    var syncLocked: bool
    /** `_pending_sync`. */
    var pendingSync: bool

    function Data(): StoreData
      reads this`trip, this`members, this`items, this`nextItemId, this`budgetLedger,
            this`venuePaginationIndex, this`syncConfig
    {
      StoreData(trip, members, items, nextItemId, budgetLedger, venuePaginationIndex, syncConfig)
    }

    /** Ids are increasing along the list and all below the counter, so the next one is new. */
    predicate Valid()
      reads this`items, this`nextItemId
    {
      IdsIncreasing(items) && IdsBelow(items, nextItemId)
    }

    method SetData(d: StoreData)
      modifies this
      ensures Data() == d
      ensures file == old(file) && syncLocked == old(syncLocked) && pendingSync == old(pendingSync)
    {
      trip := d.trip;
      members := d.members;
      items := d.items;
      nextItemId := d.nextItemId;
      budgetLedger := d.ledger;
      venuePaginationIndex := d.venueIndex;
      syncConfig := d.syncConfig;
    }

    /** `TravelState(file_path)`: empty fields, then `load`. */
    constructor(f: StateFile, now: string)
      ensures Data() == Loaded(f, InitialData, now)
      ensures file == f && !syncLocked && !pendingSync
    {
      file := f;
      trip := None;
      members := map[];
      items := [];
      nextItemId := 1;
      budgetLedger := [];
      venuePaginationIndex := 0;
      syncConfig := DefaultSyncConfig;
      syncLocked := false;
      pendingSync := false;
      new;
      Load(now);
    }

    /** `load`; `now` is the creation time given to items that carry none. */
    method Load(now: string)
      modifies this
      ensures Data() == Loaded(file, old(Data()), now)
      ensures file == old(file) && syncLocked == old(syncLocked) && pendingSync == old(pendingSync)
    {
      match file
      case Parsed(v) =>
        var r := Decode(v, Data(), now);
        if r.Some? {
          SetData(r.value);
        } else {
          InitializeDefaultState();
        }
      case _ =>
        InitializeDefaultState();
    }

    /** `_initialize_default_state`. */
    method InitializeDefaultState()
      modifies this
      ensures Data() == DefaultData(old(syncConfig))
      ensures file == old(file) && syncLocked == old(syncLocked) && pendingSync == old(pendingSync)
    {
      trip := Some(NewTrip);
      members := map[];
      items := [];
      nextItemId := 1;
      venuePaginationIndex := 0;
      budgetLedger := [];
    }

    /** `save`: the file now holds the encoded data. */
    method Save()
      modifies this
      ensures file == Parsed(Persist(Data()))
      ensures Data() == old(Data()) && syncLocked == old(syncLocked) && pendingSync == old(pendingSync)
    {
      file := Parsed(Persist(Data()));
    }

    /** `_trigger_sync`: only sets the pending flag; the run it schedules is `RunSyncBegin`. */
    method TriggerSync()
      modifies this
      ensures pendingSync == (old(pendingSync) || SyncEnabled(syncConfig))
      ensures Data() == old(Data()) && file == old(file) && syncLocked == old(syncLocked)
    {
      if !syncConfig.enabled || !HasText(syncConfig.docUrl) {
        return;
      }
      pendingSync := true;
    }

    /** `get_or_create_member`. */
    method GetOrCreateMember(name: string) returns (m: Member)
      modifies this
      ensures name in old(members) ==> m == old(members)[name] && Data() == old(Data()) && file == old(file)
      ensures name !in old(members) ==>
        m == NewMember(name) && Data() == old(Data()).(members := old(members)[name := m])
        && file == Parsed(Persist(Data()))
      ensures syncLocked == old(syncLocked) && pendingSync == old(pendingSync)
    {
      if name !in members {
        members := members[name := NewMember(name)];
        Save();
      }
      m := members[name];
    }

    /** `add_item` (and `add_venue`, `add_flight`, `add_saved_document`, which only call it):
        the item takes the counter as its id and goes at the end. */
    method AddItem(x: Item) returns (added: Item)
      modifies this
      ensures added == x.(id := old(nextItemId))
      ensures Data() == old(Data()).(items := old(items) + [added], nextItemId := old(nextItemId) + 1)
      ensures file == Parsed(Persist(Data()))
      ensures pendingSync == (old(pendingSync) || SyncEnabled(syncConfig)) && syncLocked == old(syncLocked)
      ensures old(IdsBelow(items, nextItemId)) ==> forall j :: 0 <= j < |old(items)| ==> old(items)[j].id != added.id
      ensures old(Valid()) ==> Valid()
    {
      added := x.(id := nextItemId);
      nextItemId := nextItemId + 1;
      items := items + [added];
      Save();
      TriggerSync();
    }

    /** `delete_item`: removes the first item with the id, if there is one. */
    method DeleteItem(id: int) returns (deleted: bool)
      modifies this
      ensures deleted <==> FindById(old(items), id).Some?
      ensures !deleted ==> Data() == old(Data()) && file == old(file) && pendingSync == old(pendingSync)
      ensures deleted ==>
        Data() == old(Data()).(items := RemoveAt(old(items), FindById(old(items), id).value))
        && file == Parsed(Persist(Data()))
        && pendingSync == (old(pendingSync) || SyncEnabled(syncConfig))
      ensures syncLocked == old(syncLocked)
      ensures old(Valid()) ==> Valid()
    {
      var k := FindById(items, id);
      if k.None? {
        return false;
      }
      if Valid() { RemoveKeepsIds(items, k.value, nextItemId); }
      items := RemoveAt(items, k.value);
      Save();
      TriggerSync();
      return true;
    }

    /** `add_budget_entry`. */
    method AddBudgetEntry(e: BudgetEntry)
      modifies this
      ensures Data() == old(Data()).(ledger := old(budgetLedger) + [e])
      ensures TotalSpent(budgetLedger) == TotalSpent(old(budgetLedger)) + e.amount
      ensures file == Parsed(Persist(Data()))
      ensures pendingSync == (old(pendingSync) || SyncEnabled(syncConfig)) && syncLocked == old(syncLocked)
    {
      TotalSpentAppend(budgetLedger, e);
      budgetLedger := budgetLedger + [e];
      Save();
      TriggerSync();
    }

    /** `clear_venues`: no sync is triggered. */
    method ClearVenues()
      modifies this
      ensures Data() == old(Data()).(items := Filter(NotVenue, old(items)))
      ensures file == Parsed(Persist(Data()))
      ensures syncLocked == old(syncLocked) && pendingSync == old(pendingSync)
      ensures old(Valid()) ==> Valid()
    {
      if Valid() { FilterKeepsIds(NotVenue, items, nextItemId); }
      items := Filter(NotVenue, items);
      Save();
    }

    /** `clear_flights`: no sync is triggered. */
    method ClearFlights()
      modifies this
      ensures Data() == old(Data()).(items := Filter(NotFlight, old(items)))
      ensures file == Parsed(Persist(Data()))
      ensures syncLocked == old(syncLocked) && pendingSync == old(pendingSync)
      ensures old(Valid()) ==> Valid()
    {
      if Valid() { FilterKeepsIds(NotFlight, items, nextItemId); }
      items := Filter(NotFlight, items);
      Save();
    }

    /** `clear_saved_documents`: no sync is triggered. */
    method ClearSavedDocuments()
      modifies this
      ensures Data() == old(Data()).(items := Filter(NotDocument, old(items)))
      ensures file == Parsed(Persist(Data()))
      ensures syncLocked == old(syncLocked) && pendingSync == old(pendingSync)
      ensures old(Valid()) ==> Valid()
    {
      if Valid() { FilterKeepsIds(NotDocument, items, nextItemId); }
      items := Filter(NotDocument, items);
      Save();
    }

    /** `mark_document_as_official`: `false`, with nothing changed, unless the first item with
        the id is a Document. */
    method MarkDocumentAsOfficial(docId: int) returns (ok: bool)
      modifies this
      ensures ok <==> FindById(old(items), docId).Some? && IsDocument(old(items)[FindById(old(items), docId).value])
      ensures !ok ==> Data() == old(Data()) && file == old(file) && pendingSync == old(pendingSync)
      ensures ok ==>
        Data() == old(Data()).(items := MarkedDocument(old(items), FindById(old(items), docId).value))
        && file == Parsed(Persist(Data()))
        && pendingSync == (old(pendingSync) || SyncEnabled(syncConfig))
      ensures syncLocked == old(syncLocked)
    {
      var found := FindById(items, docId);
      if found.None? || !IsDocument(items[found.value]) {
        return false;
      }
      var k := found.value;
      var doc := items[k];
      ghost var before := items;
      if IsAccommodationDocType(doc.variant.docType) {
        items := UnmarkOtherAccommodationDocs(items, doc);
      }
      assert forall j :: 0 <= j < |items| ==> items[j] == Unmarked(doc, before[j]);
      items := items[k := items[k].(isOfficial := true)];
      assert items == MarkedDocument(before, k);
      Save();
      TriggerSync();
      return true;
    }

    /** `mark_item_as_official`: any class, no other flag changes. */
    method MarkItemAsOfficial(id: int) returns (ok: bool)
      modifies this
      ensures ok <==> FindById(old(items), id).Some?
      ensures !ok ==> Data() == old(Data()) && file == old(file) && pendingSync == old(pendingSync)
      ensures ok ==>
        var k := FindById(old(items), id).value;
        Data() == old(Data()).(items := old(items)[k := old(items)[k].(isOfficial := true)])
        && file == Parsed(Persist(Data()))
        && pendingSync == (old(pendingSync) || SyncEnabled(syncConfig))
      ensures syncLocked == old(syncLocked)
    {
      var found := FindById(items, id);
      if found.None? {
        return false;
      }
      items := items[found.value := items[found.value].(isOfficial := true)];
      Save();
      TriggerSync();
      return true;
    }

    /** `_run_sync` up to the publish, with the first half of `sync_to_google_doc`: skips while
        a sync holds the lock, returns when nothing is pending, and otherwise clears the pending
        flag first; with a document URL it records `in_progress`, saves, takes the snapshot and
        keeps the lock for the publish. */
    method RunSyncBegin() returns (step: SyncStep)
      modifies this
      ensures old(syncLocked) ==> step == Skipped && Data() == old(Data()) && file == old(file)
                                  && pendingSync == old(pendingSync) && syncLocked
      ensures !old(syncLocked) && !old(pendingSync) ==>
        step == NothingPending && Data() == old(Data()) && file == old(file) && !pendingSync && !syncLocked
      ensures !old(syncLocked) && old(pendingSync) && !HasText(old(syncConfig).docUrl) ==>
        step == NoDocUrl && Data() == old(Data()) && file == old(file) && !pendingSync && !syncLocked
      ensures !old(syncLocked) && old(pendingSync) && HasText(old(syncConfig).docUrl) ==>
        step == Publishing(old(syncConfig).docUrl.value, Snapshot(old(trip), old(items), old(budgetLedger)))
        && Data() == old(Data()).(syncConfig := old(syncConfig).(lastSyncStatus := StatusInProgress))
        && file == Parsed(Persist(Data())) && !pendingSync && syncLocked
    {
      if syncLocked {
        return Skipped;
      }
      if !pendingSync {
        return NothingPending;
      }
      pendingSync := false;
      if !HasText(syncConfig.docUrl) {
        return NoDocUrl;
      }
      step := BeginPublish();
    }

    /** The first half of `sync_to_google_doc` with a document URL: records `in_progress`,
        saves, takes the snapshot and keeps the lock for the publish. */
    method BeginPublish() returns (step: SyncStep)
      requires HasText(syncConfig.docUrl)
      modifies this
      ensures step == Publishing(old(syncConfig).docUrl.value, Snapshot(old(trip), old(items), old(budgetLedger)))
      ensures Data() == old(Data()).(syncConfig := old(syncConfig).(lastSyncStatus := StatusInProgress))
      ensures file == Parsed(Persist(Data())) && pendingSync == old(pendingSync) && syncLocked
    {
      var url := syncConfig.docUrl.value;
      syncConfig := syncConfig.(lastSyncStatus := StatusInProgress);
      Save();
      var data := PrepareTripData(trip, items, budgetLedger);
      syncLocked := true;
      step := Publishing(url, data);
    }

    /** The rest of `sync_to_google_doc` once the publish has ended, then the lock is released:
        an exception records `failed` and leaves `last_sync_at`; a returned result stamps
        `last_sync_at` with `now` and records `success` exactly when the result reports it. */
    method RunSyncEnd(outcome: PublishOutcome, now: string) returns (success: bool)
      requires syncLocked
      modifies this
      ensures success <==> outcome == Returned(true)
      ensures outcome.Raised? ==>
        Data() == old(Data()).(syncConfig := old(syncConfig).(lastSyncStatus := StatusFailed))
      ensures outcome.Returned? ==>
        Data() == old(Data()).(syncConfig := old(syncConfig).(
          lastSyncAt := Some(now),
          lastSyncStatus := if outcome.success then StatusSuccess else StatusFailed))
      ensures file == Parsed(Persist(Data())) && pendingSync == old(pendingSync) && !syncLocked
    {
      match outcome {
        case Raised =>
          syncConfig := syncConfig.(lastSyncStatus := StatusFailed);
          success := false;
        case Returned(ok) =>
          syncConfig := syncConfig.(lastSyncAt := Some(now));
          if ok {
            syncConfig := syncConfig.(lastSyncStatus := StatusSuccess);
          } else {
            syncConfig := syncConfig.(lastSyncStatus := StatusFailed);
          }
          success := ok;
      }
      Save();
      syncLocked := false;
    }
  }

  /** A change saved while a publish is in flight triggers a run that is skipped; when the
      publish ends the change is still pending, but no run is left to publish it. */
  method ChangeDuringPublish(s: TravelState, x: Item, outcome: PublishOutcome, now: string)
    requires s.syncLocked && SyncEnabled(s.syncConfig)
    modifies s
    ensures s.pendingSync && !s.syncLocked
  {
    var added := s.AddItem(x);
    var step := s.RunSyncBegin();
    assert step == Skipped;
    var ok := s.RunSyncEnd(outcome, now);
  }
}
