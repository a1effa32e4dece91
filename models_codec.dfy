/** `to_dict` / `from_dict` of the records in src/models.py, over the JSON value model.

    Decoding follows the source's shape rules: keys a class does not declare are dropped (items,
    flight criteria) or make the constructor raise (trips, budget entries, sync configuration),
    a missing key takes the field's default, and an item's class comes from its `__type__` tag.
    Python stores a present value without checking its type; here a value of the wrong JSON type
    is read as the field's default. */
module Codec {
  import opened Wrappers
  import opened Json
  import opened Entities

  // ---- encoding of field values ----

  function EncOptStr(o: Option<string>): Value {
    match o
    case None => Null
    case Some(s) => Str(s)
  }

  function EncOptInt(o: Option<int>): Value {
    match o
    case None => Null
    case Some(n) => Int(n)
  }

  function EncStrs(s: seq<string>): Value {
    List(seq(|s|, i requires 0 <= i < |s| => Str(s[i])))
  }

  function EncOptStrs(o: Option<seq<string>>): Value {
    match o
    case None => Null
    case Some(s) => EncStrs(s)
  }

  function EncComment(c: Comment): Value {
    Dict(map["user" := Str(c.user), "text" := Str(c.text), "timestamp" := Str(c.timestamp)])
  }

  function EncComments(cs: seq<Comment>): Value {
    List(seq(|cs|, i requires 0 <= i < |cs| => EncComment(cs[i])))
  }

  function EncStrMap(m: map<string, string>): Value {
    Dict(map k | k in m :: Str(m[k]))
  }

  // ---- decoding of one field of a dict ----

  function StrField(d: map<string, Value>, k: string, default: string): string {
    if k in d && d[k].Str? then d[k].s else default
  }

  function OptStrField(d: map<string, Value>, k: string): Option<string> {
    if k in d && d[k].Str? then Some(d[k].s) else None
  }

  function IntField(d: map<string, Value>, k: string, default: int): int {
    if k in d && d[k].Int? then d[k].i else default
  }

  function OptIntField(d: map<string, Value>, k: string): Option<int> {
    if k in d && d[k].Int? then Some(d[k].i) else None
  }

  function BoolField(d: map<string, Value>, k: string, default: bool): bool {
    if k in d && d[k].Bool? then d[k].b else default
  }

  predicate IsStrList(v: Value) {
    v.List? && forall i :: 0 <= i < |v.elems| ==> v.elems[i].Str?
  }

  function DecStrs(v: Value): seq<string>
    requires IsStrList(v)
  {
    seq(|v.elems|, i requires 0 <= i < |v.elems| => v.elems[i].s)
  }

  /** A list-of-strings field whose default is the empty list. */
  function StrsField(d: map<string, Value>, k: string): seq<string> {
    if k in d && IsStrList(d[k]) then DecStrs(d[k]) else []
  }

  /** `amenities`: `None` is kept as `None`, the default is the empty list. */
  function OptStrsField(d: map<string, Value>, k: string): Option<seq<string>> {
    if k in d && d[k].Null? then None
    else if k in d && IsStrList(d[k]) then Some(DecStrs(d[k]))
    else Some([])
  }

  predicate IsComment(v: Value) {
    v.Dict? && "user" in v.fields && "text" in v.fields && "timestamp" in v.fields
    && v.fields["user"].Str? && v.fields["text"].Str? && v.fields["timestamp"].Str?
  }

  function DecComment(v: Value): Comment
    requires IsComment(v)
  {
    Comment(v.fields["user"].s, v.fields["text"].s, v.fields["timestamp"].s)
  }

  predicate IsCommentList(v: Value) {
    v.List? && forall i :: 0 <= i < |v.elems| ==> IsComment(v.elems[i])
  }

  function DecComments(v: Value): seq<Comment>
    requires IsCommentList(v)
  {
    seq(|v.elems|, i requires 0 <= i < |v.elems| => DecComment(v.elems[i]))
  }

  function CommentsField(d: map<string, Value>, k: string): seq<Comment> {
    if k in d && IsCommentList(d[k]) then DecComments(d[k]) else []
  }

  function DictField(d: map<string, Value>, k: string): map<string, Value> {
    if k in d && d[k].Dict? then d[k].fields else map[]
  }

  function StrMapField(d: map<string, Value>, k: string): map<string, string> {
    var m := DictField(d, k);
    map x | x in m && m[x].Str? :: m[x].s
  }

  // ---- items ----

  const BaseKeys := {"id", "title", "url", "created_at", "created_by", "comments", "is_official", "tags"}
  const VenueKeys := {"price_per_night", "total_price", "rating", "review_count", "image_url",
                      "amenities", "bedrooms", "beds", "source", "structured_data"}
  const DocumentKeys := {"doc_type", "structured_data"}
  const FlightKeys := {"member", "route", "airline", "flight_number", "departure_time",
                       "arrival_time", "duration", "stops", "price"}
  /** The keys the subclasses add. */
  const SubclassKeys := VenueKeys + DocumentKeys + FlightKeys
  /** Every key any item class reads, plus the type tag. */
  const ItemKeys := {"__type__"} + BaseKeys + SubclassKeys

  function BaseToDict(x: Item): map<string, Value> {
    map["id" := Int(x.id), "title" := Str(x.title), "url" := EncOptStr(x.url),
        "created_at" := Str(x.createdAt), "created_by" := Str(x.createdBy),
        "comments" := EncComments(x.comments), "is_official" := Bool(x.isOfficial),
        "tags" := EncStrs(x.tags)]
  }

  function VenueToDict(v: Variant): map<string, Value>
    requires v.Venue?
  {
    map["price_per_night" := EncOptInt(v.pricePerNight), "total_price" := EncOptInt(v.totalPrice),
        "rating" := EncOptInt(v.rating), "review_count" := EncOptInt(v.reviewCount),
        "image_url" := EncOptStr(v.imageUrl), "amenities" := EncOptStrs(v.amenities),
        "bedrooms" := EncOptInt(v.bedrooms), "beds" := EncOptInt(v.beds),
        "source" := Str(v.source), "structured_data" := Dict(v.structuredData)]
  }

  function FlightToDict(v: Variant): map<string, Value>
    requires v.Flight?
  {
    map["member" := Str(v.member), "route" := Str(v.route), "airline" := EncOptStr(v.airline),
        "flight_number" := EncOptStr(v.flightNumber), "departure_time" := EncOptStr(v.departureTime),
        "arrival_time" := EncOptStr(v.arrivalTime), "duration" := EncOptStr(v.duration),
        "stops" := Int(v.stops), "price" := EncOptInt(v.price)]
  }

  /** The fields a subclass adds to the shared ones. */
  function VariantToDict(v: Variant): map<string, Value> {
    match v
    case BaseItem => map[]
    case Venue(_, _, _, _, _, _, _, _, _, _) => VenueToDict(v)
    case Document(dt, sd) => map["doc_type" := Str(dt), "structured_data" := Dict(sd)]
    case Flight(_, _, _, _, _, _, _, _, _) => FlightToDict(v)
  }

  lemma BaseKeysExact(x: Item)
    ensures BaseToDict(x).Keys == BaseKeys
  {
  }

  lemma VariantKeys(v: Variant)
    ensures VariantToDict(v).Keys <= SubclassKeys
  {
  }

  /** `Item.to_dict`: the class name under `__type__` next to every field. */
  function ItemToDict(x: Item): (d: map<string, Value>)
    ensures "__type__" in d && d["__type__"] == Str(ClassName(x.variant))
  {
    map["__type__" := Str(ClassName(x.variant))] + BaseToDict(x) + VariantToDict(x.variant)
  }

  /** The encoding uses no key outside those the item classes declare. */
  lemma ItemKeysOnly(x: Item)
    ensures ItemToDict(x).Keys <= ItemKeys
  {
    BaseKeysExact(x);
    VariantKeys(x.variant);
    var t := map["__type__" := Str(ClassName(x.variant))];
    assert ItemToDict(x).Keys == t.Keys + BaseToDict(x).Keys + VariantToDict(x.variant).Keys;
  }

  /** The class chosen by `type_map.get(item_dict.get("__type__", "Item"), Item)`; `None` when
      the tag is a list or dict, which cannot be hashed and makes loading raise. */
  function TypeTag(d: map<string, Value>): Option<string> {
    if "__type__" !in d then Some("Item")
    else match d["__type__"]
      case Str(s) => Some(s)
      case List(_) => None
      case Dict(_) => None
      case _ => Some("Item")
  }

  function VenueFromDict(d: map<string, Value>): (v: Variant)
    ensures v.Venue?
  {
    Venue(OptIntField(d, "price_per_night"), OptIntField(d, "total_price"),
          OptIntField(d, "rating"), OptIntField(d, "review_count"),
          OptStrField(d, "image_url"), OptStrsField(d, "amenities"),
          OptIntField(d, "bedrooms"), OptIntField(d, "beds"),
          StrField(d, "source", "airbnb"), DictField(d, "structured_data"))
  }

  function FlightFromDict(d: map<string, Value>): (v: Variant)
    ensures v.Flight?
  {
    Flight(StrField(d, "member", ""), StrField(d, "route", ""), OptStrField(d, "airline"),
           OptStrField(d, "flight_number"), OptStrField(d, "departure_time"),
           OptStrField(d, "arrival_time"), OptStrField(d, "duration"),
           IntField(d, "stops", 0), OptIntField(d, "price"))
  }

  /** The subclass part, chosen by the tag; an unknown tag means the plain `Item`. */
  function VariantFromDict(tag: string, d: map<string, Value>): Variant {
    if tag == "Venue" then VenueFromDict(d)
    else if tag == "Document" then Document(StrField(d, "doc_type", "html"), DictField(d, "structured_data"))
    else if tag == "Flight" then FlightFromDict(d)
    else BaseItem
  }

  /** The fields every item class shares, read with their defaults. */
  function BaseFromDict(d: map<string, Value>, now: string): Item {
    Item(IntField(d, "id", 0), StrField(d, "title", ""), OptStrField(d, "url"),
         StrField(d, "created_at", now), StrField(d, "created_by", "system"),
         CommentsField(d, "comments"), BoolField(d, "is_official", false),
         StrsField(d, "tags"), BaseItem)
  }

  /** `cls.from_dict(item_dict)` with `cls` chosen by the tag; `now` is the default creation time. */
  function ItemFromDict(d: map<string, Value>, now: string): (r: Option<Item>)
    ensures r.None? <==> "__type__" in d && (d["__type__"].List? || d["__type__"].Dict?)
    ensures r.Some? && ("__type__" !in d || !d["__type__"].Str?) ==> r.value.variant.BaseItem?
  {
    match TypeTag(d)
    case None => None
    case Some(tag) => Some(BaseFromDict(d, now).(variant := VariantFromDict(tag, d)))
  }

  /** Two dicts that agree on the keys of `ks`. */
  predicate AgreeOn(d1: map<string, Value>, d2: map<string, Value>, ks: set<string>) {
    forall k :: k in ks ==> (k in d1 <==> k in d2) && (k in d1 ==> d1[k] == d2[k])
  }

  lemma BaseReadsBaseKeys(d1: map<string, Value>, d2: map<string, Value>, now: string)
    requires AgreeOn(d1, d2, BaseKeys)
    ensures BaseFromDict(d1, now) == BaseFromDict(d2, now)
  {
    assert CommentsField(d1, "comments") == CommentsField(d2, "comments");
    assert StrsField(d1, "tags") == StrsField(d2, "tags");
  }

  lemma VariantReadsVariantKeys(tag: string, d1: map<string, Value>, d2: map<string, Value>)
    requires AgreeOn(d1, d2, SubclassKeys)
    ensures VariantFromDict(tag, d1) == VariantFromDict(tag, d2)
  {
  }

  lemma StrsRoundTrip(s: seq<string>)
    ensures IsStrList(EncStrs(s)) && DecStrs(EncStrs(s)) == s
  {
  }

  lemma CommentsRoundTrip(d: map<string, Value>, k: string, cs: seq<Comment>)
    requires k in d && d[k] == EncComments(cs)
    ensures CommentsField(d, k) == cs
  {
    var es := d[k].elems;
    forall i | 0 <= i < |es| ensures IsComment(es[i]) && DecComment(es[i]) == cs[i] {
    }
  }

  lemma {:induction false} BaseRoundTrip(x: Item, now: string)
    ensures BaseFromDict(BaseToDict(x), now) == x.(variant := BaseItem)
  {
    CommentsRoundTrip(BaseToDict(x), "comments", x.comments);
    StrsRoundTrip(x.tags);
  }

  lemma VenueRoundTrip(v: Variant)
    requires v.Venue?
    ensures VenueFromDict(VenueToDict(v)) == v
  {
    var d := VenueToDict(v);
    assert OptIntField(d, "price_per_night") == v.pricePerNight;
    assert OptIntField(d, "total_price") == v.totalPrice;
    assert OptIntField(d, "rating") == v.rating;
    assert OptIntField(d, "review_count") == v.reviewCount;
    assert OptStrField(d, "image_url") == v.imageUrl;
    if v.amenities.Some? { StrsRoundTrip(v.amenities.value); }
    assert OptStrsField(d, "amenities") == v.amenities;
    assert OptIntField(d, "bedrooms") == v.bedrooms;
    assert OptIntField(d, "beds") == v.beds;
    assert StrField(d, "source", "airbnb") == v.source;
    assert DictField(d, "structured_data") == v.structuredData;
  }

  lemma DocumentRoundTrip(v: Variant)
    requires v.Document?
    ensures VariantFromDict("Document", VariantToDict(v)) == v
  {
  }

  lemma FlightRoundTrip(v: Variant)
    requires v.Flight?
    ensures FlightFromDict(FlightToDict(v)) == v
  {
  }

  lemma {:induction false} VariantRoundTrip(v: Variant)
    ensures VariantFromDict(ClassName(v), VariantToDict(v)) == v
  {
    match v
    case BaseItem =>
    case Venue(_, _, _, _, _, _, _, _, _, _) => VenueRoundTrip(v);
    case Document(_, _) => DocumentRoundTrip(v);
    case Flight(_, _, _, _, _, _, _, _, _) => FlightRoundTrip(v);
  }

  lemma AgreeLeft(a: map<string, Value>, b: map<string, Value>, ks: set<string>)
    requires b.Keys !! ks
    ensures AgreeOn(a + b, a, ks)
  {
  }

  lemma AgreeRight(a: map<string, Value>, b: map<string, Value>, ks: set<string>)
    requires a.Keys !! ks
    ensures AgreeOn(a + b, b, ks)
  {
  }

  lemma AgreeTrans(d1: map<string, Value>, d2: map<string, Value>, d3: map<string, Value>, ks: set<string>)
    requires AgreeOn(d1, d2, ks) && AgreeOn(d2, d3, ks)
    ensures AgreeOn(d1, d3, ks)
  {
  }

  lemma VenueKeysDisjoint()
    ensures VenueKeys !! (BaseKeys + {"__type__"})
  {
  }

  lemma DocumentKeysDisjoint()
    ensures DocumentKeys !! (BaseKeys + {"__type__"})
  {
  }

  lemma FlightKeysDisjoint()
    ensures FlightKeys !! (BaseKeys + {"__type__"})
  {
  }

  /** No subclass field shares its key with a shared field or with the type tag. */
  lemma KeysDisjoint()
    ensures SubclassKeys !! (BaseKeys + {"__type__"})
  {
    VenueKeysDisjoint();
    DocumentKeysDisjoint();
    FlightKeysDisjoint();
  }

  /** The encoding's tag names the item's class. */
  lemma TagRoundTrip(x: Item)
    ensures TypeTag(ItemToDict(x)) == Some(ClassName(x.variant))
  {
  }

  lemma VariantAvoidsBase(v: Variant)
    ensures VariantToDict(v).Keys !! BaseKeys
  {
    VariantKeys(v);
    KeysDisjoint();
  }

  lemma TagAvoidsBase()
    ensures "__type__" !in BaseKeys
  {
  }

  /** The shared fields decode from the full encoding as from their own part. */
  lemma {:induction false} BasePartRoundTrip(x: Item, now: string)
    ensures BaseFromDict(ItemToDict(x), now) == x.(variant := BaseItem)
  {
    var t := map["__type__" := Str(ClassName(x.variant))];
    var b := BaseToDict(x);
    var vd := VariantToDict(x.variant);
    var d := ItemToDict(x);
    assert d == t + b + vd;
    VariantAvoidsBase(x.variant);
    TagAvoidsBase();
    AgreeLeft(t + b, vd, BaseKeys);
    AgreeRight(t, b, BaseKeys);
    AgreeTrans(d, t + b, b, BaseKeys);
    BaseReadsBaseKeys(d, b, now);
    BaseRoundTrip(x, now);
  }

  /** The subclass fields decode from the full encoding as from their own part. */
  lemma {:induction false} VariantPartRoundTrip(x: Item)
    ensures VariantFromDict(ClassName(x.variant), ItemToDict(x)) == x.variant
  {
    var t := map["__type__" := Str(ClassName(x.variant))];
    var b := BaseToDict(x);
    var vd := VariantToDict(x.variant);
    var d := ItemToDict(x);
    assert d == t + b + vd;
    BaseKeysExact(x);
    KeysDisjoint();
    assert (t + b).Keys == BaseKeys + {"__type__"};
    AgreeRight(t + b, vd, SubclassKeys);
    VariantReadsVariantKeys(ClassName(x.variant), d, vd);
    VariantRoundTrip(x.variant);
  }

  /** `Item.from_dict(item.to_dict())` gives back the item: same class, same fields. */
  lemma {:induction false} ItemRoundTrip(x: Item, now: string)
    ensures ItemFromDict(ItemToDict(x), now) == Some(x)
  {
    TagRoundTrip(x);
    BasePartRoundTrip(x, now);
    VariantPartRoundTrip(x);
  }

  /** Adding a key no item class declares does not change what is decoded. */
  lemma UnknownKeyIgnored(d: map<string, Value>, k: string, v: Value, now: string)
    requires k !in ItemKeys
    ensures ItemFromDict(d[k := v], now) == ItemFromDict(d, now)
  {
    var d' := d[k := v];
    assert k != "__type__" && k !in BaseKeys && k !in SubclassKeys;
    assert TypeTag(d') == TypeTag(d);
    assert AgreeOn(d', d, BaseKeys);
    BaseReadsBaseKeys(d', d, now);
    assert AgreeOn(d', d, SubclassKeys);
    forall tag: string ensures VariantFromDict(tag, d') == VariantFromDict(tag, d) {
      VariantReadsVariantKeys(tag, d', d);
    }
  }

  /** Without a type tag, or with a tag that names no item class, the plain `Item` is built. */
  lemma UnknownTagFallsBack(d: map<string, Value>, now: string)
    requires "__type__" !in d || (d["__type__"].Str? && d["__type__"].s !in {"Venue", "Document", "Flight"})
    ensures ItemFromDict(d, now).Some? && ItemFromDict(d, now).value.variant == BaseItem
  {
  }

  // ---- flight criteria and members ----

  const CriteriaKeys := {"departure", "destination", "arrival_date", "departure_time",
                         "flight_number", "confirmation_code", "airline", "last_name"}

  /** The criterion stored under key `k` (`getattr(criteria, k)`). */
  function Criterion(c: FlightCriteria, k: string): Option<string> {
    if k == "departure" then c.departure
    else if k == "destination" then c.destination
    else if k == "arrival_date" then c.arrivalDate
    else if k == "departure_time" then c.departureTime
    else if k == "flight_number" then c.flightNumber
    else if k == "confirmation_code" then c.confirmationCode
    else if k == "airline" then c.airline
    else if k == "last_name" then c.lastName
    else None
  }

  /** `FlightCriteria.to_dict`: only the fields that are set. */
  function CriteriaToDict(c: FlightCriteria): (d: map<string, Value>)
    ensures forall k :: k in d <==> k in CriteriaKeys && Criterion(c, k).Some?
  {
    map k | k in CriteriaKeys && Criterion(c, k).Some? :: Str(Criterion(c, k).value)
  }

  /** The names other than the fields that `hasattr(FlightCriteria, k)` admits: the class's two
      methods, `mro` from its metaclass `type`, and the underscore attributes that `object`,
      `type` and `@dataclass` give it. */
  const CriteriaMethods := {"to_dict", "from_dict", "mro"}
  const UnderscoreAttrs := {"__annotations__", "__class__", "__dataclass_fields__", "__dataclass_params__",
                            "__delattr__", "__dict__", "__dir__", "__doc__", "__eq__", "__format__",
                            "__ge__", "__getattribute__", "__getstate__", "__gt__", "__hash__", "__init__",
                            "__init_subclass__", "__le__", "__lt__", "__match_args__", "__module__",
                            "__ne__", "__new__", "__reduce__", "__reduce_ex__", "__repr__", "__setattr__",
                            "__sizeof__", "__str__", "__subclasshook__", "__weakref__",
                            "__name__", "__qualname__", "__mro__", "__bases__", "__base__",
                            "__subclasses__", "__instancecheck__", "__subclasscheck__", "__call__",
                            "__prepare__", "__basicsize__", "__itemsize__", "__flags__",
                            "__weakrefoffset__", "__dictoffset__", "__text_signature__", "__or__", "__ror__"}

  predicate IsCriteriaClassAttr(k: string) {
    k in CriteriaMethods || (|k| > 0 && k[0] == '_' && k in UnderscoreAttrs)
  }

  /** `FlightCriteria.from_dict`: a key the class has no attribute for is dropped; one naming a
      class attribute that is not a field reaches `cls(**...)`, which raises: `None`. */
  function CriteriaFromDict(d: map<string, Value>): Option<FlightCriteria> {
    if forall k :: k in d ==> !IsCriteriaClassAttr(k) then
      Some(FlightCriteria(OptStrField(d, "departure"), OptStrField(d, "destination"),
                          OptStrField(d, "arrival_date"), OptStrField(d, "departure_time"),
                          OptStrField(d, "flight_number"), OptStrField(d, "confirmation_code"),
                          OptStrField(d, "airline"), OptStrField(d, "last_name")))
    else None
  }

  lemma NotUnderscoreAttr(k: string)
    requires |k| > 0 && k[0] != '_' && k !in CriteriaMethods
    ensures !IsCriteriaClassAttr(k)
  {
  }

  /** No field name is also a method or inherited attribute, so a field never makes the
      constructor raise. */
  lemma CriteriaKeysAreNotClassAttrs(k: string)
    requires k in CriteriaKeys
    ensures !IsCriteriaClassAttr(k)
  {
    assert k[0] != '_';
    NotUnderscoreAttr(k);
  }

  /** A key outside the fields and the class attributes is dropped: it changes nothing. */
  lemma CriteriaIgnoresUnknownKey(d: map<string, Value>, k: string, v: Value)
    requires k !in CriteriaKeys && !IsCriteriaClassAttr(k)
    ensures CriteriaFromDict(d[k := v]) == CriteriaFromDict(d)
  {
    var e := d[k := v];
    assert e.Keys == d.Keys + {k};
    forall f | f in CriteriaKeys ensures OptStrField(e, f) == OptStrField(d, f) {
      assert f != k;
    }
  }

  /** A key naming a method or another class attribute makes the decoding fail. */
  lemma CriteriaClassAttrRaises(d: map<string, Value>, k: string)
    requires k in d && IsCriteriaClassAttr(k)
    ensures CriteriaFromDict(d).None?
  {
  }

  lemma CriterionRead(c: FlightCriteria, k: string)
    requires k in CriteriaKeys
    ensures OptStrField(CriteriaToDict(c), k) == Criterion(c, k)
  {
  }

  /** Dropping the unset criteria loses nothing. */
  lemma {:induction false} CriteriaRoundTrip(c: FlightCriteria)
    ensures CriteriaFromDict(CriteriaToDict(c)) == Some(c)
  {
    forall k | k in CriteriaToDict(c) ensures !IsCriteriaClassAttr(k) {
      CriteriaKeysAreNotClassAttrs(k);
    }
    CriterionRead(c, "departure");
    CriterionRead(c, "destination");
    CriterionRead(c, "arrival_date");
    CriterionRead(c, "departure_time");
    CriterionRead(c, "flight_number");
    CriterionRead(c, "confirmation_code");
    CriterionRead(c, "airline");
    CriterionRead(c, "last_name");
  }

  function MemberToDict(m: Member): map<string, Value> {
    map["name" := Str(m.name), "location" := EncOptStr(m.location),
        "budget" := EncOptInt(m.budget), "flight_criteria" := Dict(CriteriaToDict(m.flightCriteria)),
        "notes" := EncOptStr(m.notes)]
  }

  /** `Member.from_dict`: `None` when it raises, that is without a `name`, with a
      `flight_criteria` that is not a dict, or with criteria that do not decode. */
  function MemberFromDict(d: map<string, Value>): (r: Option<Member>)
    ensures "name" !in d ==> r.None?
  {
    if "name" !in d then None
    else if "flight_criteria" in d && !d["flight_criteria"].Dict? then None
    else match CriteriaFromDict(DictField(d, "flight_criteria"))
      case None => None
      case Some(c) => Some(Member(StrField(d, "name", ""), OptStrField(d, "location"),
                                  OptIntField(d, "budget"), c, OptStrField(d, "notes")))
  }

  /** A member whose stored criteria name a method or another class attribute does not
      decode. */
  lemma MemberClassAttrCriterionRaises(d: map<string, Value>, k: string)
    requires "flight_criteria" in d && d["flight_criteria"].Dict?
    requires k in d["flight_criteria"].fields && IsCriteriaClassAttr(k)
    ensures MemberFromDict(d).None?
  {
    CriteriaClassAttrRaises(d["flight_criteria"].fields, k);
  }

  /** A member survives save and load. */
  lemma {:induction false} MemberRoundTrip(m: Member)
    ensures MemberFromDict(MemberToDict(m)) == Some(m)
  {
    var d := MemberToDict(m);
    CriteriaRoundTrip(m.flightCriteria);
    assert "name" in d && d["name"] == Str(m.name);
    assert d["flight_criteria"] == Dict(CriteriaToDict(m.flightCriteria));
    assert DictField(d, "flight_criteria") == CriteriaToDict(m.flightCriteria);
  }

  // ---- trip, budget entries, sync configuration: `cls(**data)` ----

  const TripKeys := {"name", "destination", "dates", "is_tracking", "tracked_conversation_id", "total_budget"}
  const EntryKeys := {"item", "amount", "date", "paid_by", "notes"}
  const SyncKeys := {"enabled", "doc_url", "last_sync_at", "last_sync_status"}

  function TripToDict(t: Trip): (d: map<string, Value>)
    ensures d.Keys == TripKeys
  {
    map["name" := Str(t.name), "destination" := EncOptStr(t.destination),
        "dates" := EncStrMap(t.dates), "is_tracking" := Bool(t.isTracking),
        "tracked_conversation_id" := EncOptStr(t.trackedConversationId),
        "total_budget" := EncOptInt(t.totalBudget)]
  }

  /** `Trip(**data)`: an unknown key or a missing `name` raises. */
  function TripFromDict(d: map<string, Value>): (r: Option<Trip>)
    ensures r.Some? <==> d.Keys <= TripKeys && "name" in d
  {
    if !(d.Keys <= TripKeys) || "name" !in d then None
    else Some(Trip(StrField(d, "name", ""), OptStrField(d, "destination"), StrMapField(d, "dates"),
                   BoolField(d, "is_tracking", false), OptStrField(d, "tracked_conversation_id"),
                   OptIntField(d, "total_budget")))
  }

  lemma TripRoundTrip(t: Trip)
    ensures TripFromDict(TripToDict(t)) == Some(t)
  {
    var d := TripToDict(t);
    assert StrMapField(d, "dates") == t.dates;
  }

  function EntryToDict(e: BudgetEntry): (d: map<string, Value>)
    ensures d.Keys == EntryKeys
  {
    map["item" := Str(e.item), "amount" := Int(e.amount), "date" := Str(e.date),
        "paid_by" := Str(e.paidBy), "notes" := EncOptStr(e.notes)]
  }

  /** `BudgetEntry(**data)`: unknown keys or a missing required field raise. */
  function EntryFromDict(d: map<string, Value>): (r: Option<BudgetEntry>)
    ensures r.Some? <==> d.Keys <= EntryKeys && {"item", "amount", "date", "paid_by"} <= d.Keys
  {
    if !(d.Keys <= EntryKeys) || !({"item", "amount", "date", "paid_by"} <= d.Keys) then None
    else Some(BudgetEntry(StrField(d, "item", ""), IntField(d, "amount", 0), StrField(d, "date", ""),
                          StrField(d, "paid_by", ""), OptStrField(d, "notes")))
  }

  lemma EntryRoundTrip(e: BudgetEntry)
    ensures EntryFromDict(EntryToDict(e)) == Some(e)
  {
  }

  function SyncToDict(c: SyncConfig): (d: map<string, Value>)
    ensures d.Keys == SyncKeys
  {
    map["enabled" := Bool(c.enabled), "doc_url" := EncOptStr(c.docUrl),
        "last_sync_at" := EncOptStr(c.lastSyncAt), "last_sync_status" := Str(c.lastSyncStatus)]
  }

  /** `SyncConfig(**data)`: unknown keys raise; every field has a default. */
  function SyncFromDict(d: map<string, Value>): (r: Option<SyncConfig>)
    ensures r.Some? <==> d.Keys <= SyncKeys
  {
    if !(d.Keys <= SyncKeys) then None
    else Some(SyncConfig(BoolField(d, "enabled", false), OptStrField(d, "doc_url"),
                         OptStrField(d, "last_sync_at"), StrField(d, "last_sync_status", StatusNever)))
  }

  lemma SyncRoundTrip(c: SyncConfig)
    ensures SyncFromDict(SyncToDict(c)) == Some(c)
  {
  }
}
