/** The store rules of the chat command handlers (src/main.py), as methods on the store with the
    reply text reduced to an abstract result. The chat transport, the language-model parsing of
    the command arguments and the vector store are left out: their results are parameters. */
module Handlers {
  import opened Wrappers
  import opened Seqs
  import opened Text
  import opened Entities
  import opened Queries
  import opened Store
  import opened OfficialRule
  import DocSync
  import VenueSearch

  /** Nothing observable about the store changed. */
  twostate predicate Untouched(s: TravelState)
    reads s
  {
    s.Data() == old(s.Data()) && s.file == old(s.file)
    && s.pendingSync == old(s.pendingSync) && s.syncLocked == old(s.syncLocked)
  }

  /** The items as `add_item` numbers them when added in order from counter `first`. */
  function Numbered(xs: seq<Item>, first: int): (r: seq<Item>)
    ensures |r| == |xs|
    ensures forall i :: 0 <= i < |r| ==> r[i] == xs[i].(id := first + i)
  {
    seq(|xs|, i requires 0 <= i < |xs| => xs[i].(id := first + i))
  }

  /** `for x in xs: state.add_item(x)`. */
  method AddAll(s: TravelState, xs: seq<Item>)
    requires |xs| > 0
    modifies s
    ensures s.Data() == old(s.Data()).(items := old(s.items) + Numbered(xs, old(s.nextItemId)),
                                       nextItemId := old(s.nextItemId) + |xs|)
    ensures s.file == Parsed(Persist(s.Data()))
    ensures s.pendingSync == (old(s.pendingSync) || SyncEnabled(s.syncConfig))
    ensures s.syncLocked == old(s.syncLocked)
    ensures old(s.Valid()) ==> s.Valid()
  {
    ghost var d0 := s.Data();
    ghost var v0 := s.Valid();
    var i := 0;
    while i < |xs|
      invariant 0 <= i <= |xs|
      invariant s.Data() == d0.(items := d0.items + Numbered(xs[..i], d0.nextItemId), nextItemId := d0.nextItemId + i)
      invariant i > 0 ==> s.file == Parsed(Persist(s.Data()))
      invariant s.pendingSync == (old(s.pendingSync) || (i > 0 && SyncEnabled(s.syncConfig)))
      invariant s.syncLocked == old(s.syncLocked)
      invariant v0 ==> s.Valid()
    {
      AddNext(s, xs, i, d0);
      i := i + 1;
    }
    assert xs[..i] == xs;
  }

  /** One pass of `AddAll`'s loop: the next item of `xs` joins the items numbered so far. */
  method AddNext(s: TravelState, xs: seq<Item>, i: nat, ghost d0: StoreData)
    requires i < |xs|
    requires s.Data() == d0.(items := d0.items + Numbered(xs[..i], d0.nextItemId), nextItemId := d0.nextItemId + i)
    modifies s
    ensures s.Data() == d0.(items := d0.items + Numbered(xs[..i + 1], d0.nextItemId), nextItemId := d0.nextItemId + i + 1)
    ensures s.file == Parsed(Persist(s.Data()))
    ensures s.pendingSync == (old(s.pendingSync) || SyncEnabled(s.syncConfig))
    ensures s.syncLocked == old(s.syncLocked)
    ensures old(s.Valid()) ==> s.Valid()
  {
    ghost var before := s.items;
    var added := s.AddItem(xs[i]);
    assert added == xs[i].(id := d0.nextItemId + i);
    assert s.items == before + [added];
    NumberedStep(d0.items, xs, i, d0.nextItemId);
    assert s.items == d0.items + Numbered(xs[..i + 1], d0.nextItemId);
  }

  lemma {:induction false} NumberedStep(prefix: seq<Item>, xs: seq<Item>, i: nat, first: int)
    requires i < |xs|
    ensures prefix + Numbered(xs[..i + 1], first)
            == (prefix + Numbered(xs[..i], first)) + [xs[i].(id := first + i)]
  {
    assert Numbered(xs[..i + 1], first) == Numbered(xs[..i], first) + [xs[i].(id := first + i)];
  }

  // ---- message indexing and !track ----

  /** The emoji the bot's own replies start with. */
  const BotPrefixes: seq<string> := ["✅", "❌", "\U{1F50D}", "✈️",
    "\U{1F4CD}", "\U{1F4B0}", "\U{1F3E0}", "\U{1F916}", "⏸️", "\U{1F5D1}️"]

  predicate IsBotReply(text: string) {
    exists p :: p in BotPrefixes && StartsWith(text, p)
  }

  /** `index_message`'s early returns: index only while tracking, only the tracked chat when one
      is recorded, and never the bot's own replies. */
  predicate ShouldIndex(trip: Option<Trip>, chatId: Option<string>, text: string) {
    if trip.None? || !trip.value.isTracking then false
    else if HasText(trip.value.trackedConversationId) && chatId != trip.value.trackedConversationId then false
    else if IsBotReply(text) then false
    else true
  }

  /** A reply the bot sends, which opens with one of its emoji, is never indexed, whatever the
      tracking state and the chat. */
  lemma BotRepliesNeverIndexed(trip: Option<Trip>, chatId: Option<string>, p: string, rest: string)
    requires p in BotPrefixes
    ensures !ShouldIndex(trip, chatId, p + rest)
  {
    assert (p + rest)[..|p|] == p;
  }

  /** While no chat id is recorded, every chat is indexed alike: the chat a message comes from
      does not matter. */
  lemma UnrecordedChatIndexesAnyChat(t: Trip, chatId: Option<string>, other: Option<string>, text: string)
    requires !HasText(t.trackedConversationId)
    ensures ShouldIndex(Some(t), chatId, text) == ShouldIndex(Some(t), other, text)
  {
  }

  /** `!track`: the trip that starts tracking the chat. */
  function Tracking(trip: Option<Trip>, chatId: Option<string>): Trip {
    if trip.None? then Trip("New Trip", None, map[], true, chatId, None)
    else trip.value.(isTracking := true, trackedConversationId := chatId)
  }

  /** `!track stop`. */
  function Untracked(t: Trip): Trip {
    t.(isTracking := false, trackedConversationId := None)
  }

  /** `track_command`; `stop` is whether the argument reads `stop`. */
  method TrackCommand(s: TravelState, stop: bool, chatId: Option<string>)
    modifies s
    ensures stop && old(s.trip).None? ==> Untouched(s)
    ensures stop && old(s.trip).Some? ==>
      s.Data() == old(s.Data()).(trip := Some(Untracked(old(s.trip).value)))
      && s.file == Parsed(Persist(s.Data()))
    ensures !stop ==>
      s.Data() == old(s.Data()).(trip := Some(Tracking(old(s.trip), chatId)))
      && s.file == Parsed(Persist(s.Data()))
    ensures s.pendingSync == old(s.pendingSync) && s.syncLocked == old(s.syncLocked)
  {
    if stop {
      if s.trip.Some? {
        s.trip := Some(s.trip.value.(isTracking := false, trackedConversationId := None));
        s.Save();
      }
      return;
    }
    if s.trip.None? {
      s.trip := Some(Trip("New Trip", None, map[], true, chatId, None));
    } else {
      s.trip := Some(s.trip.value.(isTracking := true, trackedConversationId := chatId));
    }
    s.Save();
  }

  /** After `!track` in a chat, every message of that chat except bot replies is indexed, and
      when the chat has an id, no other chat's messages are. */
  lemma TrackingIndexesThisChat(trip: Option<Trip>, chatId: Option<string>, other: Option<string>,
                                text: string)
    ensures ShouldIndex(Some(Tracking(trip, chatId)), chatId, text) <==> !IsBotReply(text)
    ensures HasText(chatId) && other != chatId ==> !ShouldIndex(Some(Tracking(trip, chatId)), other, text)
  {
  }

  /** After `!track stop` nothing is indexed. */
  lemma UntrackedIndexesNothing(t: Trip, chatId: Option<string>, text: string)
    ensures !ShouldIndex(Some(Untracked(t)), chatId, text)
  {
  }

  // ---- !venue next and the venue search ----

  const VenuePageSize := 3
  /** `MAX_VENUES_TO_STORE` (src/config.py). */
  const MaxVenuesToStore := 10

  datatype VenuePage = NoVenues | SeenAll(count: nat) | Page(shown: seq<Item>)

  /** `!venue next`: shows the next three venues from the cursor and advances it; once past the
      end it resets the cursor to 0. */
  method VenueNext(s: TravelState) returns (page: VenuePage)
    modifies s
    ensures var venues := Venues(old(s.items));
      var start := old(s.venuePaginationIndex);
      var end := Min(start + VenuePageSize, |venues|);
      var next := PySlice(venues, start, end);
      (|venues| == 0 ==> page == NoVenues && Untouched(s))
      && (|venues| > 0 && next == [] ==>
            page == SeenAll(|venues|) && s.Data() == old(s.Data()).(venueIndex := 0)
            && s.file == Parsed(Persist(s.Data())))
      && (|venues| > 0 && next != [] ==>
            page == Page(next) && s.Data() == old(s.Data()).(venueIndex := end)
            && s.file == Parsed(Persist(s.Data())))
    ensures s.pendingSync == old(s.pendingSync) && s.syncLocked == old(s.syncLocked)
  {
    var venues := Venues(s.items);
    if |venues| == 0 {
      return NoVenues;
    }
    var startIdx := s.venuePaginationIndex;
    var endIdx := Min(startIdx + VenuePageSize, |venues|);
    var next := PySlice(venues, startIdx, endIdx);
    if next == [] {
      s.venuePaginationIndex := 0;
      s.Save();
      return SeenAll(|venues|);
    }
    s.venuePaginationIndex := endIdx;
    s.Save();
    page := Page(next);
  }

  /** From a cursor inside the list, the page is the next (at most three) venues in order and the
      cursor moves past them; from a cursor at or past the end the page is empty. */
  lemma VenueWindow(venues: seq<Item>, start: int)
    ensures 0 <= start < |venues| ==>
      var end := Min(start + VenuePageSize, |venues|);
      PySlice(venues, start, end) == venues[start..end] && 1 <= end - start <= VenuePageSize
    ensures |venues| <= start ==> PySlice(venues, start, Min(start + VenuePageSize, |venues|)) == []
  {
  }

  /** The pages `!venue next` shows from cursor `start` until the reset. */
  function PagesFrom(venues: seq<Item>, start: nat): seq<seq<Item>>
    decreases |venues| - start
  {
    if start >= |venues| then []
    else [venues[start..Min(start + VenuePageSize, |venues|)]] + PagesFrom(venues, Min(start + VenuePageSize, |venues|))
  }

  /** Paging on from a cursor shows every remaining venue exactly once, in order. */
  lemma {:induction false} PagesCoverTheRest(venues: seq<Item>, start: nat)
    requires start <= |venues|
    ensures Join(PagesFrom(venues, start)) == venues[start..]
    decreases |venues| - start
  {
    if start < |venues| {
      var end := Min(start + VenuePageSize, |venues|);
      var first := venues[start..end];
      var rest := PagesFrom(venues, end);
      PagesCoverTheRest(venues, end);
      JoinCons(first, rest);
      assert venues[start..] == first + venues[end..];
    }
  }

  /** Joining a list with one more part in front puts that part first. */
  lemma {:induction false} JoinCons<T>(x: seq<T>, ss: seq<seq<T>>)
    ensures Join([x] + ss) == x + Join(ss)
    decreases |ss|
  {
    if ss != [] {
      var init := ss[..|ss| - 1];
      assert ([x] + ss)[..|ss|] == [x] + init;
      JoinCons(x, init);
    } else {
      assert [x][..0] == [];
    }
  }

  /** A stored Venue from one merged search result. */
  function VenueItem(v: VenueSearch.Tagged, sender: string, now: string): Item {
    var l := v.listing;
    NewItem(l.name, Some(l.url), now, sender,
            Venue(l.pricePerNight, l.totalPrice, l.rating, l.reviewCount, l.imageUrl, l.amenities,
                  l.bedrooms, l.beds, v.source, map[]))
  }

  function VenueItems(vs: seq<VenueSearch.Tagged>, sender: string, now: string): (r: seq<Item>)
    ensures |r| == |vs|
    ensures forall i :: 0 <= i < |r| ==> r[i] == VenueItem(vs[i], sender, now)
  {
    seq(|vs|, i requires 0 <= i < |vs| => VenueItem(vs[i], sender, now))
  }

  /** The store part of `search_venues_background`: with results, the old venues go, the cursor
      is set to 3 and the first ten results are added in order. */
  method SearchVenuesBackground(s: TravelState, venues: seq<VenueSearch.Tagged>, sender: string,
                                now: string)
    modifies s
    ensures |venues| == 0 ==> Untouched(s)
    ensures |venues| > 0 ==>
      var stored := VenueItems(Take(venues, MaxVenuesToStore), sender, now);
      s.Data() == old(s.Data()).(items := Filter(NotVenue, old(s.items)) + Numbered(stored, old(s.nextItemId)),
                                 nextItemId := old(s.nextItemId) + |stored|, venueIndex := VenuePageSize)
      && s.file == Parsed(Persist(s.Data()))
      && s.pendingSync == (old(s.pendingSync) || SyncEnabled(s.syncConfig))
    ensures s.syncLocked == old(s.syncLocked)
    ensures old(s.Valid()) ==> s.Valid()
  {
    if |venues| == 0 {
      return;
    }
    s.ClearVenues();
    s.venuePaginationIndex := VenuePageSize;
    AddAll(s, VenueItems(Take(venues, MaxVenuesToStore), sender, now));
  }

  /** After a search the venues are exactly the new ones, and every other item is still there in
      its order. */
  lemma {:induction false} RestockedVenues(items: seq<Item>, added: seq<Item>)
    requires forall i :: 0 <= i < |added| ==> IsVenue(added[i])
    ensures Venues(Filter(NotVenue, items) + added) == added
    ensures Filter(NotVenue, Filter(NotVenue, items) + added) == Filter(NotVenue, items)
  {
    var rest := Filter(NotVenue, items);
    FilterMembers(NotVenue, items);
    FilterAppend(IsVenue, rest, added);
    FilterAppend(NotVenue, rest, added);
    FilterNone(IsVenue, rest);
    FilterAll(IsVenue, added);
    FilterNone(NotVenue, added);
    FilterIdempotent(NotVenue, items);
    assert rest + [] == rest;
  }

  // ---- flight search results ----

  /** `MAX_FLIGHTS_TO_STORE` (src/config.py); the handler writes the literal 5. */
  const MaxFlightsToStore := 5

  /** One flight of the scraper's result; every key may be missing. */
  datatype FlightData = FlightData(
    departureAirport: Option<string>, arrivalAirport: Option<string>, airline: Option<string>,
    flightNumber: Option<string>, url: Option<string>, departureTime: Option<string>,
    arrivalTime: Option<string>, duration: Option<string>, stops: Option<int>, price: Option<int>)

  /** The flight scraper's envelope. */
  datatype FlightSearch = SearchFailed(error: string) | SearchOk(flights: seq<FlightData>)

  datatype FlightReply = MissingCriteria | FlightSearchFailed | NoFlights | OverBudget
                       | FlightsStored(found: nat, stored: nat)

  function Route(f: FlightData): string {
    f.departureAirport.GetOr("unknown") + "->" + f.arrivalAirport.GetOr("unknown")
  }

  function FlightTitle(airline: string, number: string, route: string): string {
    if number != "" then airline + " " + number + " - " + route else airline + " - " + route
  }

  /** The stored Flight for one result, for the member who asked. */
  function FlightItem(f: FlightData, member: string, now: string): Item {
    var route := Route(f);
    var airline := f.airline.GetOr("Unknown");
    var number := f.flightNumber.GetOr("");
    NewItem(FlightTitle(airline, number, route), Some(f.url.GetOr("")), now, member,
            Flight(member, route, Some(airline), Some(number), f.departureTime, f.arrivalTime,
                   f.duration, f.stops.GetOr(0), f.price))
  }

  function FlightItems(fs: seq<FlightData>, member: string, now: string): (r: seq<Item>)
    ensures |r| == |fs|
    ensures forall i :: 0 <= i < |r| ==> r[i] == FlightItem(fs[i], member, now)
  {
    seq(|fs|, i requires 0 <= i < |fs| => FlightItem(fs[i], member, now))
  }

  /** A missing price counts as 0. */
  predicate WithinBudget(f: FlightData, budget: int) { f.price.GetOr(0) <= budget }

  function Affordable(fs: seq<FlightData>, budget: int): seq<FlightData> {
    Filter(FitsBudget(budget), fs)
  }

  function FitsBudget(budget: int): FlightData -> bool {
    (f: FlightData) => WithinBudget(f, budget)
  }

  /** The flights the handler goes on with: the affordable ones when the member's budget is
      truthy, else all. */
  function Candidates(fs: seq<FlightData>, budget: Option<int>): seq<FlightData> {
    if NonZero(budget) then Affordable(fs, budget.value) else fs
  }

  /** The store part of `search_flights_background`. */
  method SearchFlightsBackground(s: TravelState, origin: string, destination: string,
                                 departureDate: string, result: FlightSearch, member: string,
                                 budget: Option<int>, now: string)
    returns (reply: FlightReply)
    modifies s
    ensures origin == "" || destination == "" || departureDate == "" ==>
      reply == MissingCriteria && Untouched(s)
    ensures origin != "" && destination != "" && departureDate != "" ==>
      (result.SearchFailed? ==> reply == FlightSearchFailed && Untouched(s))
      && (result.SearchOk? && |result.flights| == 0 ==> reply == NoFlights && Untouched(s))
      && (result.SearchOk? && |result.flights| > 0 && |Candidates(result.flights, budget)| == 0 ==>
            reply == OverBudget && Untouched(s))
      && (result.SearchOk? && |Candidates(result.flights, budget)| > 0 ==>
            var cands := Candidates(result.flights, budget);
            var stored := FlightItems(Take(cands, MaxFlightsToStore), member, now);
            reply == FlightsStored(|cands|, |stored|)
            && s.Data() == old(s.Data()).(items := old(s.items) + Numbered(stored, old(s.nextItemId)),
                                          nextItemId := old(s.nextItemId) + |stored|)
            && s.file == Parsed(Persist(s.Data()))
            && s.pendingSync == (old(s.pendingSync) || SyncEnabled(s.syncConfig)))
    ensures s.syncLocked == old(s.syncLocked)
    ensures old(s.Valid()) ==> s.Valid()
  {
    if origin == "" || destination == "" || departureDate == "" {
      return MissingCriteria;
    }
    if result.SearchFailed? {
      return FlightSearchFailed;
    }
    var flights := result.flights;
    if |flights| == 0 {
      return NoFlights;
    }
    if NonZero(budget) {
      var affordable := Affordable(flights, budget.value);
      if |affordable| == 0 {
        return OverBudget;
      }
      flights := affordable;
    }
    var stored := FlightItems(Take(flights, MaxFlightsToStore), member, now);
    AddAll(s, stored);
    reply := FlightsStored(|flights|, |stored|);
  }

  /** With a truthy budget every stored flight is within it; at most five are stored, the first
      candidates in order. */
  lemma StoredFlightsWithinBudget(fs: seq<FlightData>, budget: Option<int>)
    ensures var stored := Take(Candidates(fs, budget), MaxFlightsToStore);
      |stored| == Min(MaxFlightsToStore, |Candidates(fs, budget)|)
      && (NonZero(budget) ==> forall i :: 0 <= i < |stored| ==> WithinBudget(stored[i], budget.value))
      && (!NonZero(budget) ==> stored == Take(fs, MaxFlightsToStore))
  {
    if NonZero(budget) {
      FilterMembers(FitsBudget(budget.value), fs);
    }
  }

  /** The title names the airline first, then the number when there is one, and ends with the
      route. */
  lemma FlightTitleShape(airline: string, number: string, route: string)
    ensures StartsWith(FlightTitle(airline, number, route), airline)
    ensures EndsWith(FlightTitle(airline, number, route), " - " + route)
    ensures number != "" ==> StartsWith(FlightTitle(airline, number, route), airline + " " + number + " - ")
    ensures number == "" ==> FlightTitle(airline, number, route) == airline + " - " + route
  {
    var t := FlightTitle(airline, number, route);
    if number != "" {
      assert t == airline + " " + number + " - " + route;
      assert t[..|airline|] == airline;
      assert t[..|airline + " " + number + " - "|] == airline + " " + number + " - ";
      assert t[|t| - |" - " + route|..] == " - " + route;
    } else {
      assert t[..|airline|] == airline;
      assert t[|t| - |" - " + route|..] == " - " + route;
    }
  }

  // ---- !doc remove, !doc use and !docs delete ----

  /** The text after the subcommand: missing, not an integer, or the 1-based number. */
  datatype IndexArg = NoArg | NotANumber | Number(k: int)

  datatype DocReply = DocUsage | DocNotANumber | DocInvalidNumber
                    | DocUnmarked(title: string) | DocWasNotOfficial(title: string)
                    | DocDeleted(title: string)

  /** `!doc remove <k>`: clears the flag of document `k` of the list, if it is set; no sync is
      triggered. */
  method DocRemove(s: TravelState, arg: IndexArg) returns (reply: DocReply)
    modifies s
    ensures arg == NoArg ==> reply == DocUsage && Untouched(s)
    ensures arg == NotANumber ==> reply == DocNotANumber && Untouched(s)
    ensures arg.Number? && !(1 <= arg.k <= |Documents(old(s.items))|) ==>
      reply == DocInvalidNumber && Untouched(s)
    ensures arg.Number? && 1 <= arg.k <= |Documents(old(s.items))| ==>
      var p := Position(IsDocument, old(s.items), arg.k - 1);
      var doc := old(s.items)[p];
      (doc.isOfficial ==>
         reply == DocUnmarked(doc.title)
         && s.Data() == old(s.Data()).(items := old(s.items)[p := doc.(isOfficial := false)])
         && s.file == Parsed(Persist(s.Data())))
      && (!doc.isOfficial ==> reply == DocWasNotOfficial(doc.title) && Untouched(s))
    ensures s.pendingSync == old(s.pendingSync) && s.syncLocked == old(s.syncLocked)
  {
    match arg {
      case NoArg => return DocUsage;
      case NotANumber => return DocNotANumber;
      case Number(k) =>
        var index := k - 1;
        var docs := Documents(s.items);
        if !(0 <= index < |docs|) {
          return DocInvalidNumber;
        }
        var p := Position(IsDocument, s.items, index);
        var doc := s.items[p];
        if doc.isOfficial {
          s.items := s.items[p := doc.(isOfficial := false)];
          s.Save();
          return DocUnmarked(doc.title);
        }
        return DocWasNotOfficial(doc.title);
    }
  }

  /** The document list after `!doc remove k`: document `k` lost its flag, and no other document
      changed. */
  lemma {:induction false} DocRemoveUpdatesList(items: seq<Item>, k: nat)
    requires 1 <= k <= |Documents(items)|
    ensures var p := Position(IsDocument, items, k - 1);
      Documents(items[p := items[p].(isOfficial := false)])
      == Documents(items)[k - 1 := Documents(items)[k - 1].(isOfficial := false)]
  {
    var p := Position(IsDocument, items, k - 1);
    FilterUpdateAt(IsDocument, items, k - 1, items[p].(isOfficial := false));
  }

  /** Whether `mark_document_as_official(id)` succeeds on these items. */
  predicate MarksDocument(items: seq<Item>, id: int) {
    FindById(items, id).Some? && IsDocument(items[FindById(items, id).value])
  }

  /** The items and the marked titles after the numbers of `!doc use`, handled in order; `docs`
      is the document list taken before the first one. */
  function UseNumbers(items: seq<Item>, docs: seq<Item>, nums: seq<nat>): (r: (seq<Item>, seq<string>))
    ensures |r.0| == |items|
  {
    if nums == [] then (items, [])
    else UseNumber(UseNumbers(items, docs, nums[..|nums| - 1]), docs, nums[|nums| - 1])
  }

  /** One number: marks document `num` of `docs` and records its title, if the items still hold
      it as a Document. */
  function UseNumber(acc: (seq<Item>, seq<string>), docs: seq<Item>, num: nat): (r: (seq<Item>, seq<string>))
    ensures |r.0| == |acc.0|
  {
    if 1 <= num <= |docs| && MarksDocument(acc.0, docs[num - 1].id) then
      (MarkedDocument(acc.0, FindById(acc.0, docs[num - 1].id).value), acc.1 + [docs[num - 1].title])
    else acc
  }

  /** `!doc use <k> [k ...]`: the number branch, taken when the argument holds a number. */
  method DocUse(s: TravelState, nums: seq<nat>) returns (marked: seq<string>)
    requires |nums| > 0
    modifies s
    ensures marked == UseNumbers(old(s.items), Documents(old(s.items)), nums).1
    ensures s.Data() == old(s.Data()).(items := UseNumbers(old(s.items), Documents(old(s.items)), nums).0)
    ensures |marked| == 0 ==> s.file == old(s.file) && s.pendingSync == old(s.pendingSync)
    ensures |marked| > 0 ==> s.file == Parsed(Persist(s.Data()))
                             && s.pendingSync == (old(s.pendingSync) || SyncEnabled(s.syncConfig))
    ensures s.syncLocked == old(s.syncLocked)
  {
    marked := [];
    var docs := Documents(s.items);
    ghost var items0 := s.items;
    var i := 0;
    assert nums[..0] == [];
    while i < |nums|
      invariant 0 <= i <= |nums|
      invariant marked == UseNumbers(items0, docs, nums[..i]).1
      invariant s.items == UseNumbers(items0, docs, nums[..i]).0
      invariant s.trip == old(s.trip) && s.members == old(s.members) && s.budgetLedger == old(s.budgetLedger)
      invariant s.nextItemId == old(s.nextItemId)
      invariant s.venuePaginationIndex == old(s.venuePaginationIndex) && s.syncConfig == old(s.syncConfig)
      invariant |marked| == 0 ==> s.file == old(s.file) && s.pendingSync == old(s.pendingSync)
      invariant |marked| > 0 ==> s.file == Parsed(Persist(s.Data()))
                                 && s.pendingSync == (old(s.pendingSync) || SyncEnabled(s.syncConfig))
      invariant s.syncLocked == old(s.syncLocked)
    {
      UseNumbersStep(items0, docs, nums, i);
      marked := UseOne(s, docs, nums[i], marked);
      i := i + 1;
    }
    assert nums[..i] == nums;
  }

  /** One number of `!doc use`: marks document `num` of `docs` when the store still has it,
      adding its title to `marked`; the step `UseNumber` of the fold. */
  method UseOne(s: TravelState, docs: seq<Item>, num: nat, marked: seq<string>)
    returns (marked': seq<string>)
    modifies s
    ensures (s.items, marked') == UseNumber((old(s.items), marked), docs, num)
    ensures s.trip == old(s.trip) && s.members == old(s.members) && s.budgetLedger == old(s.budgetLedger)
    ensures s.nextItemId == old(s.nextItemId)
    ensures s.venuePaginationIndex == old(s.venuePaginationIndex) && s.syncConfig == old(s.syncConfig)
    ensures |marked'| == |marked| ==> s.file == old(s.file) && s.pendingSync == old(s.pendingSync)
    ensures |marked'| > |marked| ==> s.file == Parsed(Persist(s.Data()))
                                     && s.pendingSync == (old(s.pendingSync) || SyncEnabled(s.syncConfig))
    ensures s.syncLocked == old(s.syncLocked)
  {
    marked' := marked;
    var index: int := num - 1;
    if 0 <= index < |docs| {
      var doc := docs[index];
      var ok := s.MarkDocumentAsOfficial(doc.id);
      if ok {
        marked' := marked + [doc.title];
      }
    }
  }

  lemma {:induction false} UseNumbersStep(items: seq<Item>, docs: seq<Item>, nums: seq<nat>, i: nat)
    requires i < |nums|
    ensures UseNumbers(items, docs, nums[..i + 1]) == UseNumber(UseNumbers(items, docs, nums[..i]), docs, nums[i])
  {
    assert nums[..i + 1][..i] == nums[..i];
  }

  /** Ids and classes of the items are the same at every position. */
  predicate SameShape(a: seq<Item>, b: seq<Item>) {
    |a| == |b| && forall j :: 0 <= j < |a| ==> a[j].id == b[j].id && a[j].variant == b[j].variant
  }

  lemma {:induction false} UseNumbersKeepsShape(items: seq<Item>, docs: seq<Item>, nums: seq<nat>)
    ensures SameShape(UseNumbers(items, docs, nums).0, items)
  {
    if nums != [] {
      UseNumbersKeepsShape(items, docs, nums[..|nums| - 1]);
    }
  }

  /** With unique ids, the document of the last number of `!doc use` (entry `n` of the list,
      from 0) is official afterwards. */
  lemma {:induction false} DocUseMarksLast(items: seq<Item>, nums: seq<nat>, n: nat)
    requires IdsIncreasing(items)
    requires |nums| > 0 && nums[|nums| - 1] == n + 1 && n < |Documents(items)|
    ensures UseNumbers(items, Documents(items), nums).0[Position(IsDocument, items, n)].isOfficial
  {
    var docs := Documents(items);
    var init := nums[..|nums| - 1];
    var p := Position(IsDocument, items, n);
    var cur := UseNumbers(items, docs, init).0;
    StillFindsDocument(items, docs, init, n);
    assert nums == init + [n + 1];
    assert UseNumbers(items, docs, nums) == UseNumber(UseNumbers(items, docs, init), docs, n + 1);
  }

  /** However many numbers came before, document `n` of the list is still found where it was. */
  lemma {:induction false} StillFindsDocument(items: seq<Item>, docs: seq<Item>, nums: seq<nat>, n: nat)
    requires IdsIncreasing(items) && docs == Documents(items) && n < |docs|
    ensures var cur := UseNumbers(items, docs, nums).0;
      var p := Position(IsDocument, items, n);
      MarksDocument(cur, docs[n].id) && FindById(cur, docs[n].id) == Some(p)
  {
    var cur := UseNumbers(items, docs, nums).0;
    var p := Position(IsDocument, items, n);
    var id := items[p].id;
    UseNumbersKeepsShape(items, docs, nums);
    UniqueIds(items, id, p);
    FindByIdSameIds(cur, items, id);
    assert IsDocument(cur[p]);
  }

  /** `!docs delete <k>`: deletes document `k` of the list (the first item with its id) and
      returns the store ids it selects for removal from the vector store, whose ids are given.
      The selection is the one written, by the prefix `ChunkPrefixAsWritten`; by
      `AsWrittenDeletesNoChunk` it selects none of the stored chunks, which `StaleChunkIds`
      would. */
  method DocsDelete(s: TravelState, arg: IndexArg, storeIds: seq<string>)
    returns (reply: DocReply, staleChunks: seq<string>)
    modifies s
    ensures !arg.Number? ==> reply == (if arg == NoArg then DocUsage else DocNotANumber)
                             && staleChunks == [] && Untouched(s)
    ensures arg.Number? && !(1 <= arg.k <= |Documents(old(s.items))|) ==>
      reply == DocInvalidNumber && staleChunks == [] && Untouched(s)
    ensures arg.Number? && 1 <= arg.k <= |Documents(old(s.items))| ==>
      var doc := Documents(old(s.items))[arg.k - 1];
      var f := FindById(old(s.items), doc.id);
      f.Some? && reply == DocDeleted(doc.title)
      && s.Data() == old(s.Data()).(items := RemoveAt(old(s.items), f.value))
      && s.file == Parsed(Persist(s.Data()))
      && s.pendingSync == (old(s.pendingSync) || SyncEnabled(s.syncConfig))
      && staleChunks == StaleChunkIdsAsWritten(storeIds, doc.id)
      && (old(s.Valid()) ==> f.value == Position(IsDocument, old(s.items), arg.k - 1))
    ensures s.syncLocked == old(s.syncLocked)
    ensures old(s.Valid()) ==> s.Valid()
  {
    staleChunks := [];
    match arg {
      case NoArg => return DocUsage, [];
      case NotANumber => return DocNotANumber, [];
      case Number(k) =>
        var index := k - 1;
        var docs := Documents(s.items);
        if index < 0 || index >= |docs| {
          return DocInvalidNumber, [];
        }
        var doc := docs[index];
        ghost var p := Position(IsDocument, s.items, index);
        if s.Valid() {
          UniqueIds(s.items, doc.id, p);
        }
        var deleted := s.DeleteItem(doc.id);
        staleChunks := StaleChunkIdsAsWritten(storeIds, doc.id);
        reply := DocDeleted(doc.title);
    }
  }

  /** `!docs delete` removes the chosen document (entry `n` of the list, from
      0) and keeps the other documents in order. */
  lemma {:induction false} DocsDeleteUpdatesList(items: seq<Item>, n: nat)
    requires n < |Documents(items)|
    ensures Documents(RemoveAt(items, Position(IsDocument, items, n))) == RemoveAt(Documents(items), n)
  {
    FilterRemoveAtPosition(IsDocument, items, n);
  }

  // ---- chunk ids in the vector store ----

  /** The id a document's text chunk is stored under when the document is saved. */
  function ChunkId(docId: int, idx: nat): string {
    "item_" + IntToString(docId) + "_chunk_" + NatToString(idx)
  }

  function ChunkIds(chunks: seq<(int, nat)>): (r: seq<string>)
    ensures |r| == |chunks|
    ensures forall i :: 0 <= i < |r| ==> r[i] == ChunkId(chunks[i].0, chunks[i].1)
  {
    seq(|chunks|, i requires 0 <= i < |chunks| => ChunkId(chunks[i].0, chunks[i].1))
  }

  /** The prefix `!docs delete` filters the store's ids by, as written. */
  function ChunkPrefixAsWritten(docId: int): string {
    IntToString(docId) + "_chunk_"
  }

  function StaleChunkIdsAsWritten(storeIds: seq<string>, docId: int): seq<string> {
    Filter((x: string) => StartsWith(x, ChunkPrefixAsWritten(docId)), storeIds)
  }

  /** No chunk id starts with the prefix as written: chunk ids begin with `item_`, the prefix
      with a digit or `-`. */
  lemma AsWrittenPrefixNeverMatches(docId: int, other: int, idx: nat)
    ensures !StartsWith(ChunkId(other, idx), ChunkPrefixAsWritten(docId))
  {
    var c := ChunkId(other, idx);
    var p := ChunkPrefixAsWritten(docId);
    assert c[0] == 'i';
    assert p[0] == IntToString(docId)[0];
  }

  /** So, as written, deleting a document removes none of the chunks in the store. */
  lemma {:induction false} AsWrittenDeletesNoChunk(chunks: seq<(int, nat)>, docId: int)
    ensures StaleChunkIdsAsWritten(ChunkIds(chunks), docId) == []
  {
    var ids := ChunkIds(chunks);
    forall i | 0 <= i < |ids| ensures !StartsWith(ids[i], ChunkPrefixAsWritten(docId)) {
      AsWrittenPrefixNeverMatches(docId, chunks[i].0, chunks[i].1);
    }
    FilterNone((x: string) => StartsWith(x, ChunkPrefixAsWritten(docId)), ids);
  }

  /** The prefix the chunks of a document are stored under. */
  function ChunkPrefix(docId: int): string {
    "item_" + IntToString(docId) + "_chunk_"
  }

  function StaleChunkIds(storeIds: seq<string>, docId: int): seq<string> {
    Filter(HasChunkPrefix(docId), storeIds)
  }

  function HasChunkPrefix(docId: int): string -> bool {
    (x: string) => StartsWith(x, ChunkPrefix(docId))
  }

  /** A chunk id starts with a document's prefix exactly when it is one of that document's
      chunks. */
  lemma PrefixNamesDocument(docId: nat, other: nat, idx: nat)
    ensures StartsWith(ChunkId(other, idx), ChunkPrefix(docId)) <==> docId == other
  {
    var a := NatToString(docId);
    var b := NatToString(other);
    var p := ChunkPrefix(docId);
    var c := ChunkId(other, idx);
    var t := "chunk_" + NatToString(idx);
    assert p == "item_" + (a + "_" + "chunk_");
    assert c == "item_" + (b + "_" + t);
    if docId == other {
      assert c[..|p|] == p;
    }
    if StartsWith(c, p) {
      StartsWithAfter("item_", a + "_" + "chunk_", b + "_" + t);
      StartsWithShorter(b + "_" + t, a + "_" + "chunk_", a + "_");
      DigitsBeforeUnderscore(a, b, t);
      NatToStringInjective(docId, other);
    }
  }

  /** A common first part can be dropped from both sides of a prefix test. */
  lemma StartsWithAfter(h: string, x: string, y: string)
    requires StartsWith(h + y, h + x)
    ensures StartsWith(y, x)
  {
    assert forall i :: 0 <= i < |x| ==> y[i] == (h + y)[|h| + i] == (h + x)[|h| + i] == x[i];
    assert y[..|x|] == x;
  }

  /** A prefix of a prefix is a prefix. */
  lemma StartsWithShorter(s: string, x: string, q: string)
    requires StartsWith(s, x) && StartsWith(x, q)
    ensures StartsWith(s, q)
  {
    assert s[..|q|] == s[..|x|][..|q|];
  }

  /** Digit strings end where their `_` delimiter stands: one followed by `_` cannot start with
      another followed by `_` unless the two are equal. */
  lemma DigitsBeforeUnderscore(a: string, b: string, t: string)
    requires forall i :: 0 <= i < |a| ==> '0' <= a[i] <= '9'
    requires forall i :: 0 <= i < |b| ==> '0' <= b[i] <= '9'
    requires StartsWith(b + "_" + t, a + "_")
    ensures a == b
  {
    var s := b + "_" + t;
    var q := a + "_";
    assert forall i :: 0 <= i < |q| ==> s[i] == q[i];
    var k := if |a| < |b| then |a| else |b|;
    assert s[k] == q[k] && s[k] == (b + "_")[k] && q[k] == (a + "_")[k];
    assert |a| == |b|;
    assert forall i :: 0 <= i < |a| ==> a[i] == q[i] == s[i] == b[i];
  }

  /** Deleting a document selects exactly its own chunks among the stored chunk ids. */
  lemma {:induction false} StaleChunkIdsExact(chunks: seq<(int, nat)>, docId: nat)
    requires forall i :: 0 <= i < |chunks| ==> chunks[i].0 >= 0
    ensures forall i :: 0 <= i < |chunks| ==>
      (ChunkIds(chunks)[i] in StaleChunkIds(ChunkIds(chunks), docId) <==> chunks[i].0 == docId)
  {
    var ids := ChunkIds(chunks);
    FilterMembers(HasChunkPrefix(docId), ids);
    forall i | 0 <= i < |chunks|
      ensures ids[i] in StaleChunkIds(ids, docId) <==> chunks[i].0 == docId
    {
      PrefixNamesDocument(docId, chunks[i].0, chunks[i].1);
    }
  }

  // ---- !budget set and !budget add ----

  datatype BudgetReply = InvalidAmount | NotPositive | BudgetSet(amount: int)
                       | ExpenseAdded(entry: BudgetEntry)

  /** The trip after `!budget set`. */
  function WithBudget(trip: Option<Trip>, amount: int): Trip {
    if trip.None? then Trip("New Trip", None, map[], false, None, Some(amount))
    else trip.value.(totalBudget := Some(amount))
  }

  /** `!budget set <amount>`; `amount` is `None` when the text is not a number. No sync is
      triggered. */
  method BudgetSetCommand(s: TravelState, amount: Option<int>) returns (reply: BudgetReply)
    modifies s
    ensures amount.None? ==> reply == InvalidAmount && Untouched(s)
    ensures amount.Some? && amount.value <= 0 ==> reply == NotPositive && Untouched(s)
    ensures amount.Some? && amount.value > 0 ==>
      reply == BudgetSet(amount.value)
      && s.Data() == old(s.Data()).(trip := Some(WithBudget(old(s.trip), amount.value)))
      && s.file == Parsed(Persist(s.Data()))
    ensures s.pendingSync == old(s.pendingSync) && s.syncLocked == old(s.syncLocked)
  {
    if amount.None? {
      return InvalidAmount;
    }
    var a := amount.value;
    if a <= 0 {
      return NotPositive;
    }
    if s.trip.None? {
      s.trip := Some(Trip("New Trip", None, map[], false, None, Some(a)));
    } else {
      s.trip := Some(s.trip.value.(totalBudget := Some(a)));
    }
    s.Save();
    reply := BudgetSet(a);
  }

  /** The set budget is what the published snapshot reports, and an existing trip changes in
      no other field. */
  lemma BudgetSetIsPublished(trip: Option<Trip>, amount: int, items: seq<Item>,
                             ledger: seq<BudgetEntry>)
    ensures DocSync.Snapshot(Some(WithBudget(trip, amount)), items, ledger).totalBudget == Some(amount)
    ensures trip.Some? ==> WithBudget(trip, amount).(totalBudget := trip.value.totalBudget) == trip.value
    ensures trip.None? ==> WithBudget(trip, amount) == NewTrip.(totalBudget := Some(amount))
  {
  }

  /** `!budget add`: the parsed item (default `expense`), amount (default 0) and notes are
      inputs; a positive amount appends one entry paid by the sender. */
  method BudgetAddCommand(s: TravelState, item: Option<string>, amount: Option<int>,
                          notes: Option<string>, sender: string, now: string)
    returns (reply: BudgetReply)
    modifies s
    ensures amount.GetOr(0) <= 0 ==> reply == NotPositive && Untouched(s)
    ensures amount.GetOr(0) > 0 ==>
      var e := BudgetEntry(item.GetOr("expense"), amount.GetOr(0), now, sender, notes);
      reply == ExpenseAdded(e)
      && s.Data() == old(s.Data()).(ledger := old(s.budgetLedger) + [e])
      && TotalSpent(s.budgetLedger) == TotalSpent(old(s.budgetLedger)) + e.amount
      && s.file == Parsed(Persist(s.Data()))
      && s.pendingSync == (old(s.pendingSync) || SyncEnabled(s.syncConfig))
    ensures s.syncLocked == old(s.syncLocked)
  {
    var a := amount.GetOr(0);
    if a <= 0 {
      return NotPositive;
    }
    var e := BudgetEntry(item.GetOr("expense"), a, now, sender, notes);
    s.AddBudgetEntry(e);
    reply := ExpenseAdded(e);
  }

  // ---- !comment ----

  datatype CommentReply = CommentUsage | CommentNotFound(id: nat) | CommentAdded(id: nat)

  /** `!comment <id> <text>`; `itemId` is `None` when the first word is not a number. */
  method CommentCommand(s: TravelState, itemId: Option<nat>, text: string, sender: string,
                        now: string)
    returns (reply: CommentReply)
    modifies s
    ensures itemId.None? ==> reply == CommentUsage && Untouched(s)
    ensures itemId.Some? && FindById(old(s.items), itemId.value).None? ==>
      reply == CommentNotFound(itemId.value) && Untouched(s)
    ensures itemId.Some? && FindById(old(s.items), itemId.value).Some? ==>
      var k := FindById(old(s.items), itemId.value).value;
      reply == CommentAdded(itemId.value)
      && s.Data() == old(s.Data()).(items := old(s.items)[k := AddComment(old(s.items)[k], sender, text, now)])
      && s.file == Parsed(Persist(s.Data()))
      && s.pendingSync == (old(s.pendingSync) || SyncEnabled(s.syncConfig))
    ensures s.syncLocked == old(s.syncLocked)
    ensures old(s.Valid()) ==> s.Valid()
  {
    if itemId.None? {
      return CommentUsage;
    }
    var id := itemId.value;
    var found := FindById(s.items, id);
    if found.None? {
      return CommentNotFound(id);
    }
    var k := found.value;
    s.items := s.items[k := AddComment(s.items[k], sender, text, now)];
    s.Save();
    s.TriggerSync();
    reply := CommentAdded(id);
  }

  /** A comment adds exactly one record to the snapshot's comment pool. */
  lemma {:induction false} CommentAddsOneRecord(items: seq<Item>, k: nat, user: string,
                                                text: string, now: string)
    requires k < |items|
    ensures DocSync.CommentCount(items[k := AddComment(items[k], user, text, now)])
            == DocSync.CommentCount(items) + 1
    decreases |items|
  {
    var after := items[k := AddComment(items[k], user, text, now)];
    var n := |items|;
    if k == n - 1 {
      assert after[..n - 1] == items[..n - 1];
    } else {
      assert after[..n - 1] == items[..n - 1][k := AddComment(items[k], user, text, now)];
      CommentAddsOneRecord(items[..n - 1], k, user, text, now);
    }
  }

  // ---- !official ----

  datatype OfficialReply = OfficialUsage | NothingFound(notFound: seq<nat>)
                         | OfficialMarked(marked: seq<nat>, notFound: seq<nat>)

  /** `official_command`; `ids` are the numbers in the argument, in order. The store is saved but
      no sync is triggered. */
  method OfficialCommand(s: TravelState, ids: seq<nat>) returns (reply: OfficialReply)
    modifies s
    ensures |ids| == 0 ==> reply == OfficialUsage && Untouched(s)
    ensures |ids| > 0 ==>
      s.Data() == old(s.Data()).(items := AfterBatch(old(s.items), ids, ids))
      && s.file == Parsed(Persist(s.Data()))
      && (|FoundIds(old(s.items), ids)| == 0 ==> reply == NothingFound(MissingIds(old(s.items), ids)))
      && (|FoundIds(old(s.items), ids)| > 0 ==>
            reply == OfficialMarked(FoundIds(old(s.items), ids), MissingIds(old(s.items), ids)))
    ensures s.pendingSync == old(s.pendingSync) && s.syncLocked == old(s.syncLocked)
  {
    if |ids| == 0 {
      return OfficialUsage;
    }
    var items, marked, notFound := ApplyBatch(s.items, ids);
    s.items := items;
    s.Save();
    if |marked| == 0 {
      return NothingFound(notFound);
    }
    reply := OfficialMarked(marked, notFound);
  }

  /** An official Venue and an airbnb Document saved from a listing. */
  const OfficialCabin := Item(1, "Cabin", None, "t0", "ana", [], true, [],
                              Venue(None, None, None, None, None, None, None, None, "airbnb", map[]))
  const ListingDoc := Item(2, "Listing", None, "t1", "ana", [], false, [],
                           Document("airbnb", map[]))

  /** `!doc use` on the airbnb Document leaves the Venue official as well: two official
      accommodations. */
  lemma DocUseKeepsOfficialVenue()
    ensures var r := MarkedDocument([OfficialCabin, ListingDoc], 1);
      IsAccommodation(r[0]) && r[0].isOfficial && IsAccommodation(r[1]) && r[1].isOfficial
  {
  }

  /** `!official 2` on the same items clears the Venue's flag: one official accommodation. */
  lemma OfficialDemotesVenue()
    ensures var r := AfterBatch([OfficialCabin, ListingDoc], [2], [2]);
      !r[0].isOfficial && r[1].isOfficial
  {
    var items := [OfficialCabin, ListingDoc];
    assert FindById(items, 2) == Some(1);
    assert FoundAccommodation(items, [2]);
    assert FindById(items, 1) == Some(0);
  }
}
