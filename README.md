# iMessage travel bot — a Dafny model of the item store and its handler rules

The bot keeps one trip's planning state in a `TravelState`. The state holds:

- the trip itself;
- the members, each with a budget and flight criteria;
- a list of typed items, each a Venue, a Document or a Flight. Every item carries comments and an
  "official" flag, and its id is drawn from an increasing counter;
- an append-only budget ledger;
- a venue pagination cursor;
- the configuration of the shared planning document the state is published to.

Chat commands (`!official`, `!venue next`, `!doc use`/`remove`, `!docs delete`, `!budget`,
`!track`, `!comment`) and the background venue and flight searches update this state. A debounced
sync publishes a snapshot of it. Scrapers hand back result envelopes of listings or document text.

The model has one module per source file:

| module | models |
|---|---|
| `Entities` | the entities of `src/models.py` |
| `Codec` | their dictionary encodings |
| `Queries` | the getters |
| `Store` | `TravelState` as a class: load and save over an abstract state file, the mutators, the sync-trigger state machine |
| `Handlers` | the `src/main.py` handlers, as methods on the store |
| `OfficialRule` | the batch rule of `!official` |
| `DocSync` | the snapshot of `src/google_doc_sync.py` |
| `VenueSearch` | the merge of `src/stagehand_scraper.py` |
| `Airbnb`, `Vrbo` | the URL and envelope parts of those scrapers |
| `Listings` | the URL zip they share |
| `DocumentScraper` | chunking and classification in `scrape_document.py` |

`Seqs`, `Text`, `Json` and `Wrappers` are vocabulary for the others.

Three places where the code differs from what the rest of it leads one to expect; the model
follows the code:

- The comment at src/main.py:1382 allows only one official accommodation at a time.
  `mark_document_as_official` (src/models.py:369-386, used by `!doc use`) only un-marks other
  airbnb/vrbo Documents and never Venues. The `!official` command un-marks Venues too. Both are modelled as written, and
  `Handlers.DocUseKeepsOfficialVenue` / `Handlers.OfficialDemotesVenue` show the two outcomes side
  by side.
- `!official` saves but does not trigger a sync, unlike the store mutators it sits beside.
- The flight handler caps stored flights with a literal 5 and does not use `MAX_FLIGHTS_TO_STORE`.
  The value is the same.

## Model

| member | source | states |
|---|---|---|
| `Queries.FindById` | src/models.py:304-306 | the index found holds the id, and there is none exactly when no item has that id |
| `Queries.ItemById` | src/models.py:304-306 | `get_item_by_id` returns an item of the list with that id exactly when one exists |
| `Queries.GettersAreOrderedFilters` | src/models.py:292-302 | the venue, document, flight and official-document lists are subsequences of `items` containing exactly the items of their kind |
| `Queries.FilterIsSubsequence` | src/models.py:292-302 | a comprehension's result is an order-preserving subsequence of the list |
| `Queries.FilterExactly` | src/models.py:292-302 | a comprehension keeps exactly the elements satisfying its test, in order |
| `Queries.FilterKeepsIncreasing` | src/models.py:350-353 | removing items by a test keeps ids strictly increasing |
| `Queries.FilterKeepsIds` | src/models.py:364-367 | clearing a kind keeps ids increasing and below the counter |
| `Queries.RemoveKeepsIds` | src/models.py:317-325 | deleting one item keeps ids increasing and below the counter |
| `Queries.UniqueIds` | src/models.py:308-315 | while ids rise along the list, the item holding an id is the one `get_item_by_id` finds |
| `Queries.TotalSpentAppend` | src/models.py:346-348 | the total spent after appending an entry is the previous total plus its amount |
| `Queries.TotalBudgetRemove` | src/models.py:342-344 | the budget total is one member's budget plus the total of the others (missing budget counts 0) |
| `Queries.TotalBudgetInsert` | src/models.py:342-344 | inserting a new member adds exactly their budget to the total |
| `Codec.ItemToDict` | src/models.py:54-56 | the encoding carries the class name under `__type__` |
| `Codec.ItemKeysOnly` | src/models.py:54-56 | the encoding uses only the tag, the base keys and the subclass keys |
| `Codec.TagRoundTrip` | src/models.py:54-62 | the tag read back is the class name written |
| `Codec.VenueFromDict` | src/models.py:59-65 | a `Venue` tag decodes to a Venue |
| `Codec.FlightFromDict` | src/models.py:59-65 | a `Flight` tag decodes to a Flight |
| `Codec.ItemFromDict` | src/models.py:59-65 | decoding fails exactly when `__type__` is a list or dict (unhashable); a missing or non-string tag gives a base item |
| `Codec.VariantKeys` | src/models.py:137-162 | the subclass fields are encoded under their own keys only |
| `Codec.BaseReadsBaseKeys` | src/models.py:59-65 | the base fields are read from the base keys alone |
| `Codec.VariantReadsVariantKeys` | src/models.py:59-65 | the subclass fields are read from the subclass keys alone |
| `Codec.KeysDisjoint` | src/models.py:137-162 | subclass keys never clash with base keys or the tag |
| `Codec.StrsRoundTrip` | src/models.py:144 | a list of strings decodes back to itself |
| `Codec.CommentsRoundTrip` | src/models.py:46-52 | the comment list decodes back to itself |
| `Codec.BaseRoundTrip` | src/models.py:54-65 | the base fields round-trip |
| `Codec.VenueRoundTrip` | src/models.py:137-148 | the Venue fields round-trip |
| `Codec.DocumentRoundTrip` | src/models.py:182-185 | the Document fields round-trip |
| `Codec.FlightRoundTrip` | src/models.py:152-162 | the Flight fields round-trip |
| `Codec.VariantRoundTrip` | src/models.py:59-65 | every subclass decodes from its own tag and fields |
| `Codec.BasePartRoundTrip` | src/models.py:54-65 | the base fields read back from a full item encoding are the item's |
| `Codec.VariantPartRoundTrip` | src/models.py:59-65 | the subclass read back under the written tag is the item's |
| `Codec.ItemRoundTrip` | src/models.py:54-65 | `from_dict(to_dict(x)) == x` for every item |
| `Codec.UnknownKeyIgnored` | src/models.py:59-65 | a key outside the known ones does not change the decoded item |
| `Codec.UnknownTagFallsBack` | src/models.py:59-65 | a missing or unknown `__type__` decodes to a base item |
| `Codec.CriteriaToDict` | src/models.py:80-86 | exactly the criteria that are set appear as keys |
| `Codec.CriteriaRoundTrip` | src/models.py:80-86 | flight criteria round-trip |
| `Codec.CriteriaClassAttrRaises` | src/models.py:83-85 | a stored criteria key naming a method or other class attribute passes `hasattr` and makes `cls(**...)` raise |
| `Codec.CriteriaIgnoresUnknownKey` | src/models.py:83-85 | a key that is neither a field nor a class attribute is dropped and changes nothing |
| `Codec.CriteriaKeysAreNotClassAttrs` | src/models.py:69-85 | no criteria field name is a method or inherited class attribute |
| `Codec.MemberFromDict` | src/models.py:97-116 | a dictionary without `name` does not decode |
| `Codec.MemberClassAttrCriterionRaises` | src/models.py:106-108 | a member whose criteria hold such an attribute key does not decode |
| `Codec.MemberRoundTrip` | tests/test_bot.py:93-113 | a member with its criteria survives encoding and decoding |
| `Codec.TripToDict` | src/models.py:128-134 | the trip's encoding has exactly the trip keys |
| `Codec.TripFromDict` | src/models.py:128-134 | a trip decodes exactly when its keys are known and `name` is present |
| `Codec.TripRoundTrip` | src/models.py:128-134 | trips round-trip |
| `Codec.EntryToDict` | src/models.py:174-180 | a ledger entry's encoding has exactly the entry keys |
| `Codec.EntryFromDict` | src/models.py:174-180 | an entry decodes exactly when its keys are known and the four required ones are present |
| `Codec.EntryRoundTrip` | src/models.py:174-180 | ledger entries round-trip |
| `Codec.SyncToDict` | src/models.py:21-27 | the sync configuration's encoding has exactly its keys |
| `Codec.SyncFromDict` | src/models.py:21-27 | a sync configuration decodes exactly when its keys are known |
| `Codec.SyncRoundTrip` | src/models.py:21-27 | sync configurations round-trip |
| `Store.Loaded` | src/models.py:213-255 | the sync configuration survives unless a file decodes; a missing or unreadable file gives the default state |
| `Store.ItemsRoundTrip` | src/models.py:234-240 | the saved items load back in order |
| `Store.EntriesRoundTrip` | src/models.py:231 | the saved ledger loads back |
| `Store.MembersRoundTrip` | src/models.py:225-228 | the saved members load back, keyed by name |
| `Store.PersistedTrip` | src/models.py:221-222 | the saved trip loads back |
| `Store.PersistedMembers` | src/models.py:225-228 | the members of a saved state load back |
| `Store.PersistedLists` | src/models.py:266-282 | `save` writes the encoded items and ledger |
| `Store.PersistedScalars` | src/models.py:242-247 | the counter, cursor and sync configuration load back |
| `Store.PersistFields` | src/models.py:266-282 | `save` writes each of the seven top-level keys with its encoded value |
| `Store.DecodeFromParts` | src/models.py:213-248 | a file whose every part decodes to the matching part of a state loads as that state |
| `Store.LoadAfterSave` | src/models.py:213-282 | loading what `save` wrote restores the state |
| `Store.FailedLoadKeepsSync` | src/models.py:249-264 | a missing file or a failing decode gives the default state with the old sync configuration |
| `Store.ClassAttrCriterionResetsState` | src/models.py:216-255 | one member's criteria key naming a class attribute makes `load` fall back to the whole default state |
| `Store.MissingTripKeepsTrip` | src/models.py:221-222 | a missing or falsy `trip` leaves the trip as it was |
| `Store.UnmarkOtherAccommodationDocs` | src/models.py:377-380 | the loop clears the flag of every other airbnb/vrbo Document and of nothing else |
| `Store.MarkedDocument` | src/models.py:369-386 | marking keeps the list's length |
| `Store.MarkedDocumentIsOnlyOfficialDoc` | src/models.py:369-386 | an airbnb/vrbo Document, once marked, is the only official airbnb/vrbo Document |
| `Store.MarkedDocumentSparesOthers` | src/models.py:369-386 | Venues, Flights and other document types keep their flag; a non-accommodation document changes only itself |
| `Store.TravelState.SetData` | src/models.py:213-255 | the fields take the given values, with file and flags unchanged |
| `Store.TravelState.constructor` | src/models.py:196-211 | a new store is the initial state after `load` |
| `Store.TravelState.Load` | src/models.py:213-255 | the store becomes `Loaded` of its file |
| `Store.TravelState.InitializeDefaultState` | src/models.py:257-264 | every field is reset except the sync configuration |
| `Store.TravelState.Save` | src/models.py:266-282 | the file holds the encoding of the state, and nothing else changes |
| `Store.TravelState.TriggerSync` | src/models.py:403-418 | the pending flag is set exactly when sync is enabled with a document URL |
| `Store.TravelState.GetOrCreateMember` | src/models.py:284-289 | an existing member is returned unchanged; otherwise a new member is stored under that name only |
| `Store.TravelState.AddItem` | src/models.py:308-315 | the item gets the counter as id, is appended, the counter rises by one, the id is new, and the id invariant is kept |
| `Store.TravelState.DeleteItem` | src/models.py:317-325 | it returns true exactly when the id exists; then exactly that item is removed, otherwise nothing changes |
| `Store.TravelState.AddBudgetEntry` | src/models.py:336-340 | the entry is appended and the total spent rises by its amount |
| `Store.TravelState.ClearVenues` | src/models.py:350-353 | exactly the Venues are removed, the counter untouched |
| `Store.TravelState.ClearFlights` | src/models.py:355-358 | exactly the Flights are removed, the counter untouched |
| `Store.TravelState.ClearSavedDocuments` | src/models.py:364-367 | exactly the Documents are removed, the counter untouched |
| `Store.TravelState.MarkDocumentAsOfficial` | src/models.py:369-386 | it succeeds exactly for a Document id, then applies `MarkedDocument`; otherwise nothing changes |
| `Store.TravelState.MarkItemAsOfficial` | src/models.py:388-397 | it succeeds exactly for a present id, then sets only that item's flag |
| `Store.TravelState.RunSyncBegin` | src/models.py:420-453 | it skips while locked and returns with nothing pending; otherwise it clears the pending flag first, and with a URL records `in_progress` and hands the snapshot to the publisher |
| `Store.TravelState.RunSyncEnd` | src/google_doc_sync.py:44-62 | success exactly when the publish reports it; `last_sync_at` only once the publish returned; the lock is released |
| `Store.TravelState.BeginPublish` | src/models.py:420-453 | with a document URL, the run records `in_progress`, saves, keeps the lock and hands the snapshot of the state to the publish |
| `Store.ChangeDuringPublish` | src/models.py:420-453 | a change saved during a publish is left pending with no run to publish it |
| `DocSync.ItemRecords` | src/google_doc_sync.py:83-90 | one record per comment of the item, in order |
| `DocSync.FlattenRecordsEveryComment` | src/google_doc_sync.py:83-90 | the gathered records number the comments and include each one |
| `DocSync.InsertDesc` | src/google_doc_sync.py:95 | insertion adds exactly the record |
| `DocSync.SortDesc` | src/google_doc_sync.py:95 | sorting permutes the records |
| `DocSync.InsertDescSorted` | src/google_doc_sync.py:95 | insertion keeps descending timestamp order |
| `DocSync.SortDescSorted` | src/google_doc_sync.py:95 | the sort yields descending timestamp order |
| `DocSync.PrepareTripData` | src/google_doc_sync.py:65-130 | the loop-built snapshot is `Snapshot` of the store |
| `DocSync.SnapshotLists` | src/google_doc_sync.py:73-80 | the official Venues and Documents, the first 10 venues and all flights and documents, each in order |
| `DocSync.SnapshotStats` | src/google_doc_sync.py:99-129 | the counts are the list lengths, `total_spent` is the ledger sum, and with no trip the default trip is published |
| `DocSync.SnapshotRecentComments` | src/google_doc_sync.py:83-96 | min(20, comment count) records, sorted newest first, each a real comment |
| `Handlers.Numbered` | src/main.py:289-306 | successive items get successive ids |
| `Handlers.AddAll` | src/main.py:289-306 | the items are appended numbered from the counter, saved, synced, with the id invariant kept |
| `Handlers.AddNext` | src/main.py:289-306 | one pass adds the next item with the next id, saves, syncs and keeps the id invariant |
| `Handlers.BotRepliesNeverIndexed` | src/main.py:79-81 | a message opening with any of the bot's reply emoji is never indexed, whatever the tracking state or chat |
| `Handlers.UnrecordedChatIndexesAnyChat` | src/main.py:74-77 | while no chat id is recorded, the chat a message comes from does not affect whether it is indexed |
| `Handlers.TrackCommand` | src/main.py:178-206 | start tracks this chat and saves; stop with a trip untracks and saves, without a trip changes nothing |
| `Handlers.TrackingIndexesThisChat` | src/main.py:178-206 | after start, this chat's user messages are indexed and other chats' are not |
| `Handlers.UntrackedIndexesNothing` | src/main.py:178-206 | after stop, nothing is indexed |
| `Handlers.VenueNext` | src/main.py:352-370 | no venues changes nothing; an empty window resets the cursor; otherwise the window of three is shown and the cursor moves to its end |
| `Handlers.VenueWindow` | src/main.py:357-370 | the shown slice is `venues[s:min(s+3,n)]`, empty once the cursor passes the end |
| `Handlers.PagesCoverTheRest` | src/main.py:357-370 | paging on from a cursor shows every remaining venue once, in order |
| `Handlers.VenueItems` | src/main.py:289-306 | one venue item per listing, in order |
| `Handlers.SearchVenuesBackground` | src/main.py:264-306 | with results, previous venues go, at most 10 new ones are added in order and the cursor is 3; with none, nothing changes |
| `Handlers.RestockedVenues` | src/main.py:285-306 | after restocking, the venues are exactly the added ones and every other item is kept in order |
| `Handlers.FlightItems` | src/main.py:626-647 | one flight item per stored flight, in order |
| `Handlers.SearchFlightsBackground` | src/main.py:577-647 | each error path replies and leaves the state unchanged; otherwise the first five candidates are stored |
| `Handlers.StoredFlightsWithinBudget` | src/main.py:613-647 | at most five flights are stored; with a budget all cost at most it (a missing price counts 0), else they are the first five found |
| `Handlers.FlightTitleShape` | src/main.py:628-632 | the title is `airline number - route`, or `airline - route` with no number |
| `Handlers.DocRemove` | src/main.py:716-737 | usage, non-number and out-of-range change nothing; `k` names `docs[k-1]`, whose flag is cleared only if set |
| `Handlers.DocRemoveUpdatesList` | src/main.py:725-733 | clearing the flag in `items` updates only `docs[k-1]` in the document list |
| `Handlers.UseNumbers` | src/main.py:740-770 | the marking fold keeps the list's length |
| `Handlers.UseNumber` | src/main.py:753-759 | one number keeps the list's length |
| `Handlers.DocUse` | src/main.py:740-770 | the loop applies `UseNumbers`; it saves and syncs exactly when some document was marked |
| `Handlers.UseOne` | src/main.py:753-759 | one number is the fold step `UseNumber`: an in-range number of a document still stored marks it by the store rule, adds its title, saves and syncs; otherwise nothing changes |
| `Handlers.UseNumbersKeepsShape` | src/main.py:740-770 | marking changes only flags, never ids or kinds |
| `Handlers.DocUseMarksLast` | src/main.py:753-759 | the document of the last valid number is official afterwards |
| `Handlers.DocsDelete` | src/main.py:835-864 | usage and out-of-range change nothing; otherwise `docs[k-1]` is deleted and saved, and the store ids are selected by the prefix as written, `"{d}_chunk_"` |
| `Handlers.DocsDeleteUpdatesList` | src/main.py:842-854 | deleting `docs[k-1]` from `items` removes exactly entry `k-1` of the document list |
| `Handlers.ChunkIds` | src/main.py:465 | one chunk id per chunk, in order |
| `Handlers.AsWrittenPrefixNeverMatches` | src/main.py:860 | the chunk prefix as written does not start any chunk id |
| `Handlers.AsWrittenDeletesNoChunk` | src/main.py:860 | as written, deleting a document selects no chunk |
| `Handlers.PrefixNamesDocument` | src/main.py:465 | the corrected prefix matches a chunk id exactly when it names the same document |
| `Handlers.StaleChunkIdsExact` | src/main.py:465 | the corrected selection holds exactly the chunks of the deleted document |
| `Handlers.BudgetSetCommand` | src/main.py:1036-1057 | a missing or non-positive amount changes nothing; otherwise the trip's budget is set, creating a new trip if needed |
| `Handlers.BudgetSetIsPublished` | src/main.py:1044-1050 | the budget set is the one published; only `total_budget` changes, or a `New Trip` is created |
| `Handlers.BudgetAddCommand` | src/main.py:1100-1116 | a non-positive amount changes nothing; otherwise one entry is appended and the total spent rises by it |
| `Handlers.CommentCommand` | src/main.py:1307-1349 | usage and unknown ids change nothing; otherwise one comment is added to that item only, saved and synced |
| `Handlers.CommentAddsOneRecord` | src/main.py:1307-1349 | a comment adds exactly one published comment record |
| `Handlers.OfficialCommand` | src/main.py:1352-1429 | no ids is usage; otherwise the batch rule is applied and saved without a sync, and replies list the found and missing ids |
| `Handlers.DocUseKeepsOfficialVenue` | src/models.py:377-380 | marking an airbnb document leaves an official Venue official |
| `Handlers.OfficialDemotesVenue` | src/main.py:1388-1398 | `!official` on an airbnb document demotes the official Venue |
| `OfficialRule.AfterBatch` | src/main.py:1374-1403 | only flags change; the list keeps its length |
| `OfficialRule.DemoteOthers` | src/main.py:1388-1398 | the inner loop clears exactly the official accommodations outside the batch |
| `OfficialRule.ApplyBatch` | src/main.py:1374-1403 | the loop yields `AfterBatch` and reports the found and missing ids in batch order |
| `OfficialRule.HandleId` | src/main.py:1377-1400 | one outer pass takes `AfterBatch` from the ids handled to one more, and reports whether the id names an item |
| `OfficialRule.BatchStep` | src/main.py:1377-1400 | one more id changes nothing when it names nothing, else runs the demotion pass for an accommodation and sets the item's flag |
| `OfficialRule.BatchStepMissing` | src/main.py:1377-1379 | an id naming nothing leaves the outcome as it was |
| `OfficialRule.BatchStepFound` | src/main.py:1380-1400 | an id naming an item demotes the other accommodations when it is one, then marks the item |
| `OfficialRule.BatchMarksFound` | src/main.py:1374-1403 | every found id of the batch is official afterwards |
| `OfficialRule.BatchDemotesOutside` | src/main.py:1383-1398 | an accommodation outside the batch loses its flag exactly when the batch finds an accommodation |
| `OfficialRule.BatchSparesOthers` | src/main.py:1383-1398 | non-accommodations outside the batch are unchanged |
| `OfficialRule.BatchWithoutAccommodation` | src/main.py:1383-1398 | a batch without accommodations un-marks nothing |
| `OfficialRule.FoundIdsMembers` | src/main.py:1377-1379 | the marked ids are exactly the batch ids that name an item |
| `OfficialRule.MissingIdsChangeNothing` | src/main.py:1377-1379 | ids naming nothing do not affect the outcome |
| `OfficialRule.SingleAccommodationIsOnlyOfficial` | src/main.py:1374-1403 | a one-accommodation batch leaves it the only official accommodation |
| `VenueSearch.PriceBounds` | src/stagehand_scraper.py:132-133 | no minimum price; the budget as maximum when truthy |
| `VenueSearch.TagAll` | src/stagehand_scraper.py:148-169 | each listing tagged with its source, in order |
| `VenueSearch.AppendTagged` | src/stagehand_scraper.py:148-169 | appends exactly the tagged listings of a successful source |
| `VenueSearch.SearchVenuesParallel` | src/stagehand_scraper.py:116-172 | the Airbnb listings then the Vrbo listings, each tagged |
| `VenueSearch.MergeShape` | src/stagehand_scraper.py:145-172 | the merged length is the sum, each group in order with its tag |
| `VenueSearch.TagAllConcat` | src/stagehand_scraper.py:145-172 | the same for any two listing groups |
| `VenueSearch.FailedSourceAddsNothing` | src/stagehand_scraper.py:140-169 | a raising or failed source contributes nothing |
| `VenueSearch.NoAirbnbPriceFilter` | src/stagehand_scraper.py:132-133 | through this path the Airbnb URL never carries a price filter |
| `Listings.WithUrls` | src/stagehand_scripts/scrape_airbnb.py:143-144 | the zip keeps the listing count |
| `Listings.AttachUrls` | src/stagehand_scripts/scrape_airbnb.py:143-144 | the in-place loop leaves the array as `WithUrls` of its contents |
| `Listings.WithUrlsShape` | src/stagehand_scripts/scrape_vrbo.py:126-127 | listings under the bound get their URL, the rest are unchanged, and no other field changes |
| `Listings.DefaultUrlBeyondZip` | src/stagehand_scripts/scrape_airbnb.py:25 | listings past the URL list keep the empty default URL |
| `Listings.WithUrlsIdempotent` | src/stagehand_scripts/scrape_airbnb.py:143-144 | zipping twice is zipping once |
| `Listings.Envelope` | src/stagehand_scripts/scrape_airbnb.py:150-173 | success carries the source and the zipped listings; failure carries the error |
| `Airbnb.Scrape` | src/stagehand_scripts/scrape_airbnb.py:83-173 | the URL built and the envelope returned |
| `Airbnb.SearchUrlOrder` | src/stagehand_scripts/scrape_airbnb.py:83 | the quoted location, then `checkin`, `checkout`, `adults`, in order |
| `Airbnb.FilteredCarriesBounds` | src/stagehand_scripts/scrape_airbnb.py:85-88 | with both bounds truthy, `price_min` and `price_max` follow the search URL |
| `Vrbo.Scrape` | src/stagehand_scripts/scrape_vrbo.py:77-156 | the URL built and the envelope returned |
| `Vrbo.SearchUrlOrder` | src/stagehand_scripts/scrape_vrbo.py:77 | the quoted destination, then `startDate`, `endDate`, `adults`, in order |
| `DocumentScraper.AccommodationTypeFromUrl` | src/stagehand_scripts/scrape_document.py:119-126 | the document counts as accommodation exactly for Airbnb or Vrbo URLs |
| `DocumentScraper.ChunkText` | src/stagehand_scripts/scrape_document.py:134-137 | the chunks join back to the text, number ⌈len/1000⌉, are non-empty, at most 1000 long and full except the last |
| `DocumentScraper.ScrapeDocument` | src/stagehand_scripts/scrape_document.py:167-191 | failure is the error only; success carries the title, type, full text and its chunks |
| `Seqs.Filter` | src/models.py:292-302 | a comprehension is no longer than the list |
| `Seqs.FilterMembers` | src/models.py:292-302 | a comprehension returns elements of the list satisfying the test, and all of them |
| `Seqs.FilterAppend` | src/models.py:308-315 | filtering distributes over appending |
| `Seqs.FilterAll` | src/models.py:292-302 | a test every element passes keeps the list |
| `Seqs.FilterNone` | src/models.py:292-302 | a test no element passes gives the empty list |
| `Seqs.FilterIdempotent` | src/models.py:350-367 | clearing twice is clearing once |
| `Seqs.FilterCommute` | src/models.py:350-367 | clearing two kinds in either order gives the same list |
| `Seqs.FilterFilter` | src/models.py:399-401 | filtering a filter is filtering by both tests |
| `Seqs.Position` | src/main.py:725-733 | the position in `items` of entry `n` of a filtered list |
| `Seqs.FilterUpdateAt` | src/main.py:725-733 | changing that item in `items` changes only entry `n` of the filter |
| `Seqs.RemoveAt` | src/models.py:317-325 | removing one index keeps the others in order |
| `Seqs.FilterRemoveAt` | src/main.py:842-854 | removing that item from `items` removes entry `n` of the filter |
| `Seqs.FilterRemoveAtPosition` | src/main.py:842-854 | the same, stated with `RemoveAt` |
| `Seqs.Take` | src/google_doc_sync.py:78-80 | a prefix of at most `n` elements |
| `Seqs.PySlice` | src/main.py:357-370 | Python slicing within and past the bounds |
| `Text.ContainsIff` | src/stagehand_scripts/scrape_document.py:119-126 | `in` on strings means an occurrence at some index |
| `Text.ContainsAppend` | src/stagehand_scripts/scrape_document.py:119-126 | an occurrence stays when text is appended |
| `Text.OccursInParts` | src/stagehand_scripts/scrape_vrbo.py:77 | each part of a concatenation occurs at its offset |
| `Text.LexLeTotal` | src/google_doc_sync.py:95 | timestamp comparison is total |
| `Text.LexLeTrans` | src/google_doc_sync.py:95 | timestamp comparison is transitive |
| `Text.LexLeRefl` | src/google_doc_sync.py:95 | timestamp comparison is reflexive |
| `Text.NatToString` | src/main.py:465 | a decimal rendering is non-empty and all digits |
| `Text.NatToStringInjective` | src/main.py:465 | different numbers render differently |
| `Text.IntToString` | src/stagehand_scripts/scrape_airbnb.py:83 | an integer rendering starts with a sign or a digit |

## Left out

- File I/O: `load`/`save` read and write an abstract state file, either parsed JSON, missing, or
  unreadable. JSON text, its parse errors, and the default arguments of `json.dump` are not
  modelled.
- Floating-point prices, budgets and ratings are integers, and the `float()` parse of amounts such
  as "$5,000" is not modelled: the handlers take the parsed amount (or `None`) as input.
- `datetime.now()` timestamps are parameters (`now`).
- Timestamps are compared as strings, which matches ISO order.
- The asyncio tasks, `asyncio.gather`, `asyncio.sleep` and the real `asyncio.Lock` are replaced by
  a sequential state machine. The lock is a boolean, and the publish is split into
  `RunSyncBegin` / `RunSyncEnd` around the await.
- The publish itself (the browser script that rewrites the shared document) is an input: it raised,
  or it returned a success flag.
- `src/openai_helpers.py` and every LLM call are not part of this model. The natural-language branch
  of `!doc use` and the criteria extraction are not modelled, and the handlers take already-parsed
  arguments as inputs. Lower-casing of arguments and `re.findall` number extraction are among
  these; the comment handler's "no text" usage reply is folded into `itemId == None`.
- The Chroma vector store is not modelled: indexing, search and deletion calls. What is modelled:
  - the chunk-id strings the deletion selects;
  - the "should this message be indexed" predicate.
- `src/stagehand_scripts/sync_google_doc.py` and `src/stagehand_scripts/scrape_google_flights.py`
  are not part of this model: browser automation and prompt text only.
- The browser sessions of the scrapers are inputs: page text, title, structured extraction and the
  list of scraped URLs. `urllib.parse.quote` is an uninterpreted function.
- The parsed flight search result is likewise an input.
- Reply text and emoji formatting are abstract reply datatypes. Also not modelled: `!help`,
  `!status`, `!sync` (the manual sync command), the scraped-URL cache, and the URL-to-scrape
  suggestion in venue replies.
- `add_venue`, `add_flight` and `add_saved_document` are `add_item` under other names and are
  covered by `Store.TravelState.AddItem`. `get_official_documents` is `Queries.OfficialDocuments`.
- A JSON `null` and a missing key are both read as "absent". A flight whose price is present but
  `null` counts as price 0, the same as a missing price.
- A value of the wrong type for a field is read as that field's default. The source would store it
  unchecked and fail later.
- `Queries.TotalBudgetRemove`: the member budget total is a ghost function over the member map
  (map iteration order cannot be observed), so no executable `get_total_budget` loop is modelled.
- `Codec.CriteriaFromDict`: the class attributes `hasattr` admits are listed as CPython 3.11 gives
  them to a dataclass. Attributes that only other versions add (such as `__type_params__`,
  `__firstlineno__` or `__static_attributes__`) are treated as absent, so the key is dropped.
- `Handlers.TrackCommand`: the reply text and the chat-id lookup of the transport are abstract;
  the chat id is an input.

## Findings

| source | as written | input that shows it | evidently intended | confidence | as-written member | corrected member |
|---|---|---|---|---|---|---|
| src/main.py:860 | deleting document `d` selects stored ids starting with `"{d}_chunk_"`, but chunk ids are written as `"item_{d}_chunk_{i}"` (src/main.py:465), so none matches | a document with id 3 whose chunk is stored as `item_3_chunk_0`: the prefix `3_chunk_` does not start it, and the chunk stays in the store | select ids starting with `"item_{d}_chunk_"`, the chunks of that document and of no other | not executed | `Handlers.AsWrittenDeletesNoChunk` | `Handlers.StaleChunkIdsExact` |
