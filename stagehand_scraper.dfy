/** `search_venues_parallel` (src/stagehand_scraper.py): the price bounds it passes on, and the
    merge of the Airbnb and Vrbo result envelopes into one list of listings tagged with their
    source. The two scraper runs are uninterpreted inputs; `asyncio.gather(...,
    return_exceptions=True)` hands each back as a result or as the exception it raised. */
module VenueSearch {
  import opened Wrappers
  import opened Listings
  import Airbnb
  import Vrbo

  /** What `gather` returns for one scraper. */
  datatype SourceOutcome = Raised(error: string) | Returned(result: ScrapeResult)

  /** A listing dictionary after `listing['source'] = ...`. */
  datatype Tagged = Tagged(source: string, listing: Listing)

  /** The bounds handed to the Airbnb scraper: never a minimum, the budget as maximum when it is
      truthy. */
  function PriceBounds(budget: Option<int>): (r: (Option<int>, Option<int>))
    ensures r.0 == None
    ensures NonZero(budget) ==> r.1 == budget
    ensures !NonZero(budget) ==> r.1 == None
  {
    (None, if NonZero(budget) then budget else None)
  }

  /** The listings a source contributes: those of a successful envelope, else none. */
  function Contributed(o: SourceOutcome): seq<Listing> {
    if o.Returned? && o.result.Success? then o.result.listings else []
  }

  /** The listings of a group, each tagged with `source`, in order. */
  function TagAll(source: string, ls: seq<Listing>): (r: seq<Tagged>)
    ensures |r| == |ls|
    ensures forall i :: 0 <= i < |r| ==> r[i] == Tagged(source, ls[i])
  {
    seq(|ls|, i requires 0 <= i < |ls| => Tagged(source, ls[i]))
  }

  /** Appends every listing of a successful envelope, tagged. */
  method AppendTagged(venues: seq<Tagged>, source: string, o: SourceOutcome)
    returns (r: seq<Tagged>)
    ensures r == venues + TagAll(source, Contributed(o))
  {
    r := venues;
    if o.Returned? && o.result.Success? {
      var listings := o.result.listings;
      var i := 0;
      while i < |listings|
        invariant 0 <= i <= |listings|
        invariant r == venues + TagAll(source, listings[..i])
      {
        assert TagAll(source, listings[..i + 1]) == TagAll(source, listings[..i]) + [Tagged(source, listings[i])];
        r := r + [Tagged(source, listings[i])];
        i := i + 1;
      }
      assert listings[..i] == listings;
    }
  }

  /** The merge: the Airbnb listings, then the Vrbo listings. */
  method SearchVenuesParallel(airbnb: SourceOutcome, vrbo: SourceOutcome)
    returns (venues: seq<Tagged>)
    ensures venues == TagAll(Airbnb.Source, Contributed(airbnb)) + TagAll(Vrbo.Source, Contributed(vrbo))
  {
    venues := AppendTagged([], Airbnb.Source, airbnb);
    venues := AppendTagged(venues, Vrbo.Source, vrbo);
  }

  /** The merged list has one entry per listing of each successful source; the first group comes
      from Airbnb, each group keeps its order, and every entry carries its source's tag. */
  lemma MergeShape(airbnb: SourceOutcome, vrbo: SourceOutcome)
    ensures var a := Contributed(airbnb);
      var v := Contributed(vrbo);
      var m := TagAll("airbnb", a) + TagAll("vrbo", v);
      |m| == |a| + |v|
      && (forall i :: 0 <= i < |a| ==> m[i].source == "airbnb" && m[i].listing == a[i])
      && (forall j :: 0 <= j < |v| ==> m[|a| + j].source == "vrbo" && m[|a| + j].listing == v[j])
  {
    TagAllConcat(Contributed(airbnb), Contributed(vrbo));
  }

  lemma TagAllConcat(a: seq<Listing>, v: seq<Listing>)
    ensures var m := TagAll("airbnb", a) + TagAll("vrbo", v);
      |m| == |a| + |v|
      && (forall i :: 0 <= i < |a| ==> m[i].source == "airbnb" && m[i].listing == a[i])
      && (forall j :: 0 <= j < |v| ==> m[|a| + j].source == "vrbo" && m[|a| + j].listing == v[j])
  {
    var ta := TagAll("airbnb", a);
    var tv := TagAll("vrbo", v);
    var m := ta + tv;
    forall i | 0 <= i < |a| ensures m[i] == Tagged("airbnb", a[i]) {
      assert m[i] == ta[i];
    }
    forall j | 0 <= j < |v| ensures m[|a| + j] == Tagged("vrbo", v[j]) {
      assert m[|a| + j] == tv[j];
    }
  }

  /** A source that raised or reported failure adds nothing to the merge. */
  lemma FailedSourceAddsNothing(o: SourceOutcome)
    requires o.Raised? || o.result.Failure?
    ensures TagAll("airbnb", Contributed(o)) == [] && TagAll("vrbo", Contributed(o)) == []
  {
  }

  /** Through this path the Airbnb price filter is never applied, whatever the budget: the search
      URL is the bare one. */
  lemma NoAirbnbPriceFilter(quote: string -> string, location: string, checkin: string,
                            checkout: string, adults: int, budget: Option<int>)
    ensures var (lo, hi) := PriceBounds(budget);
      Airbnb.FullUrl(quote, location, checkin, checkout, adults, lo, hi)
      == Airbnb.SearchUrl(quote, location, checkin, checkout, adults)
  {
    var (lo, hi) := PriceBounds(budget);
    assert !Airbnb.PriceFiltered(lo, hi);
    Airbnb.UnfilteredIsSearchUrl(quote, location, checkin, checkout, adults, lo, hi);
  }
}
