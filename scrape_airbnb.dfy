/** The sequential part of `scrape_airbnb` (src/stagehand_scripts/scrape_airbnb.py): the search
    URL, the optional price filter, the URL zip and the result envelope. The browser session is
    an uninterpreted input, and so is `urllib.parse.quote`. */
module Airbnb {
  import opened Wrappers
  import opened Text
  import opened Listings

  const Source := "airbnb"
  const Site := "https://www.airbnb.com/s/"

  /** The search page for a quoted location, the stay dates and the number of guests. */
  function SearchUrl(quote: string -> string, location: string, checkin: string,
                     checkout: string, adults: int): string
  {
    Site + quote(location) + ("/homes?checkin=" + checkin) + ("&checkout=" + checkout)
      + ("&adults=" + IntToString(adults))
  }

  /** The price filter is added only when both bounds are truthy (set and non-zero). */
  predicate PriceFiltered(minPrice: Option<int>, maxPrice: Option<int>) {
    NonZero(minPrice) && NonZero(maxPrice)
  }

  function PriceQuery(minPrice: int, maxPrice: int): string {
    ("&price_min=" + IntToString(minPrice)) + ("&price_max=" + IntToString(maxPrice))
  }

  /** The page the scraper navigates to. */
  function FullUrl(quote: string -> string, location: string, checkin: string, checkout: string,
                   adults: int, minPrice: Option<int>, maxPrice: Option<int>): string
  {
    var base := SearchUrl(quote, location, checkin, checkout, adults);
    if PriceFiltered(minPrice, maxPrice) then base + PriceQuery(minPrice.value, maxPrice.value)
    else base
  }

  /** `scrape_airbnb`: builds the URL, and returns the envelope for what the browser produced
      there. */
  method Scrape(quote: string -> string, location: string, checkin: string, checkout: string,
                adults: int, minPrice: Option<int>, maxPrice: Option<int>, run: PageRun)
    returns (fullUrl: string, r: ScrapeResult)
    ensures fullUrl == FullUrl(quote, location, checkin, checkout, adults, minPrice, maxPrice)
    ensures run.Crashed? ==> r == Failure(run.error)
    ensures run.Extracted? ==> r == Success(Source, WithUrls(run.listings, run.realUrls))
  {
    var searchUrl := SearchUrl(quote, location, checkin, checkout, adults);
    if NonZero(minPrice) && NonZero(maxPrice) {
      fullUrl := searchUrl + PriceQuery(minPrice.value, maxPrice.value);
    } else {
      fullUrl := searchUrl;
    }
    r := Envelope(Source, run);
  }

  /** The URL starts with the quoted location path, and the `checkin`, `checkout` and `adults`
      parameters follow it in that order. */
  lemma SearchUrlOrder(quote: string -> string, location: string, checkin: string,
                       checkout: string, adults: int)
    ensures var url := SearchUrl(quote, location, checkin, checkout, adults);
      var p1 := |Site + quote(location)|;
      var p2 := p1 + |"/homes?checkin=" + checkin|;
      var p3 := p2 + |"&checkout=" + checkout|;
      StartsWith(url, Site + quote(location))
      && OccursAt(url, "/homes?checkin=" + checkin, p1)
      && OccursAt(url, "&checkout=" + checkout, p2)
      && OccursAt(url, "&adults=" + IntToString(adults), p3)
      && p1 < p2 < p3
  {
    var a := Site + quote(location);
    var b := "/homes?checkin=" + checkin;
    var c := "&checkout=" + checkout;
    var d := "&adults=" + IntToString(adults);
    OccursInParts(a, b, c, d);
  }

  /** Without two truthy bounds the navigated URL is the bare search URL. */
  lemma UnfilteredIsSearchUrl(quote: string -> string, location: string, checkin: string,
                              checkout: string, adults: int, minPrice: Option<int>,
                              maxPrice: Option<int>)
    requires !PriceFiltered(minPrice, maxPrice)
    ensures FullUrl(quote, location, checkin, checkout, adults, minPrice, maxPrice)
            == SearchUrl(quote, location, checkin, checkout, adults)
  {
  }

  /** With two truthy bounds the URL extends the search URL with both bounds, max last. */
  lemma FilteredCarriesBounds(quote: string -> string, location: string, checkin: string,
                              checkout: string, adults: int, minPrice: Option<int>,
                              maxPrice: Option<int>)
    requires PriceFiltered(minPrice, maxPrice)
    ensures var url := FullUrl(quote, location, checkin, checkout, adults, minPrice, maxPrice);
      StartsWith(url, SearchUrl(quote, location, checkin, checkout, adults))
      && Contains(url, "&price_min=" + IntToString(minPrice.value))
      && EndsWith(url, "&price_max=" + IntToString(maxPrice.value))
  {
    var base := SearchUrl(quote, location, checkin, checkout, adults);
    var lo := "&price_min=" + IntToString(minPrice.value);
    var hi := "&price_max=" + IntToString(maxPrice.value);
    var url := FullUrl(quote, location, checkin, checkout, adults, minPrice, maxPrice);
    assert url == base + (lo + hi);
    assert url[..|base|] == base;
    assert url[|base|..|base| + |lo|] == lo;
    assert OccursAt(url, lo, |base|);
    ContainsIff(url, lo);
    assert url[|url| - |hi|..] == hi;
  }
}
