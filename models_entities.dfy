/** The records of the trip store (src/models.py): items with their three variants, members,
    the trip, budget entries and the document-sync configuration.

    Money and ratings, floats in the source, are integers in fixed-point units (cents, hundredths).
    Timestamps are ISO-format strings supplied by the caller. */
module Entities {
  import opened Wrappers
  import opened Json

  /** One entry of an item's comment list: `{"user", "text", "timestamp"}`. */
  datatype Comment = Comment(user: string, text: string, timestamp: string)

  /** The concrete class of an item. `BaseItem` is the plain `Item` class, which the loader falls
      back to for a missing or unknown type tag. */
  datatype Variant =
    | BaseItem
    | Venue(pricePerNight: Option<int>, totalPrice: Option<int>, rating: Option<int>,
            reviewCount: Option<int>, imageUrl: Option<string>, amenities: Option<seq<string>>,
            bedrooms: Option<int>, beds: Option<int>, source: string,
            structuredData: map<string, Value>)
    | Document(docType: string, structuredData: map<string, Value>)
    | Flight(member: string, route: string, airline: Option<string>, flightNumber: Option<string>,
             departureTime: Option<string>, arrivalTime: Option<string>, duration: Option<string>,
             stops: int, price: Option<int>)

  /** A referenceable item; `id` is assigned by the store when the item is added. */
  datatype Item = Item(id: int, title: string, url: Option<string>, createdAt: string,
                       createdBy: string, comments: seq<Comment>, isOfficial: bool,
                       tags: seq<string>, variant: Variant)

  predicate IsVenue(i: Item) { i.variant.Venue? }
  predicate IsDocument(i: Item) { i.variant.Document? }
  predicate IsFlight(i: Item) { i.variant.Flight? }
  predicate NotVenue(i: Item) { !i.variant.Venue? }
  predicate NotDocument(i: Item) { !i.variant.Document? }
  predicate NotFlight(i: Item) { !i.variant.Flight? }

  /** The document types that describe an accommodation listing. */
  predicate IsAccommodationDocType(t: string) { t == "airbnb" || t == "vrbo" }

  /** A document saved from an Airbnb or Vrbo page. */
  predicate IsAccommodationDoc(i: Item) {
    i.variant.Document? && IsAccommodationDocType(i.variant.docType)
  }

  /** A Venue, or a Document whose type is airbnb or vrbo. */
  predicate IsAccommodation(i: Item) { IsVenue(i) || IsAccommodationDoc(i) }

  predicate IsOfficialVenue(i: Item) { IsVenue(i) && i.isOfficial }
  predicate IsOfficialDocument(i: Item) { IsDocument(i) && i.isOfficial }
  predicate IsOfficial(i: Item) { i.isOfficial }

  /** The Python class name of the item's variant, which is also its `__type__` tag. */
  function ClassName(v: Variant): string {
    match v
    case BaseItem => "Item"
    case Venue(_, _, _, _, _, _, _, _, _, _) => "Venue"
    case Document(_, _) => "Document"
    case Flight(_, _, _, _, _, _, _, _, _) => "Flight"
  }

  /** A fresh item of the given variant with every base field at its default. */
  function NewItem(title: string, url: Option<string>, createdAt: string, createdBy: string,
                   variant: Variant): Item
  {
    Item(0, title, url, createdAt, createdBy, [], false, [], variant)
  }

  /** `Item.add_comment`: the comment goes at the end of the item's list. */
  function AddComment(x: Item, user: string, text: string, timestamp: string): Item {
    x.(comments := x.comments + [Comment(user, text, timestamp)])
  }

  datatype FlightCriteria = FlightCriteria(
    departure: Option<string>, destination: Option<string>, arrivalDate: Option<string>,
    departureTime: Option<string>, flightNumber: Option<string>,
    confirmationCode: Option<string>, airline: Option<string>, lastName: Option<string>)

  const NoCriteria := FlightCriteria(None, None, None, None, None, None, None, None)

  datatype Member = Member(name: string, location: Option<string>, budget: Option<int>,
                           flightCriteria: FlightCriteria, notes: Option<string>)

  /** `Member(name=name)`. */
  function NewMember(name: string): Member {
    Member(name, None, None, NoCriteria, None)
  }

  datatype Trip = Trip(name: string, destination: Option<string>, dates: map<string, string>,
                       isTracking: bool, trackedConversationId: Option<string>,
                       totalBudget: Option<int>)

  /** `Trip(name="New Trip")`. */
  const NewTrip := Trip("New Trip", None, map[], false, None, None)

  datatype BudgetEntry = BudgetEntry(item: string, amount: int, date: string, paidBy: string,
                                     notes: Option<string>)

  /** The values `last_sync_status` takes. */
  const StatusNever := "never"
  const StatusInProgress := "in_progress"
  const StatusSuccess := "success"
  const StatusFailed := "failed"

  datatype SyncConfig = SyncConfig(enabled: bool, docUrl: Option<string>,
                                   lastSyncAt: Option<string>, lastSyncStatus: string)

  /** `SyncConfig()`. */
  const DefaultSyncConfig := SyncConfig(false, None, None, StatusNever)
}
