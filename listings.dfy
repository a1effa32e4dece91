/** The listing record and result envelope shared by the Airbnb and Vrbo scrapers
    (src/stagehand_scripts/scrape_airbnb.py, src/stagehand_scripts/scrape_vrbo.py), and the loop
    both run to copy the URLs found in the page onto the extracted listings, in place.

    Prices and ratings, floats in the source, are integers in fixed-point units. */
module Listings {
  import opened Wrappers
  import opened Seqs

  /** One extracted listing; `url` defaults to the empty string. */
  datatype Listing = Listing(name: string, pricePerNight: Option<int>, totalPrice: Option<int>,
                             rating: Option<int>, reviewCount: Option<int>,
                             imageUrl: Option<string>, amenities: Option<seq<string>>,
                             bedrooms: Option<int>, beds: Option<int>, url: string)

  /** What the browser session produced, taken as an uninterpreted input: it raised (at start-up,
      navigation or extraction), or it extracted listings and then collected the page's
      distinct listing links. */
  datatype PageRun = Crashed(error: string) | Extracted(listings: seq<Listing>, realUrls: seq<string>)

  /** The dictionary a scraper returns: `{success: False, error}` or
      `{success: True, source, data: {listings}}`. */
  datatype ScrapeResult = Failure(error: string) | Success(source: string, listings: seq<Listing>)

  /** The listings after the zip: position `i` takes `urls[i]` while both lists last. */
  function WithUrls(ls: seq<Listing>, urls: seq<string>): (r: seq<Listing>)
    ensures |r| == |ls|
  {
    seq(|ls|, i requires 0 <= i < |ls| => if i < |urls| then ls[i].(url := urls[i]) else ls[i])
  }

  /** `for i in range(min(len(listings), len(real_urls))): listings[i].url = real_urls[i]`. */
  method AttachUrls(a: array<Listing>, urls: seq<string>)
    modifies a
    ensures a[..] == WithUrls(old(a[..]), urls)
  {
    var n := Min(a.Length, |urls|);
    for i := 0 to n
      invariant forall j :: 0 <= j < i ==> a[j] == old(a[j]).(url := urls[j])
      invariant forall j :: i <= j < a.Length ==> a[j] == old(a[j])
    {
      a[i] := a[i].(url := urls[i]);
    }
  }

  /** The zip keeps the count, gives the first `min(len, len(urls))` listings their page URL,
      leaves the rest as they were, and never touches a field other than `url`. */
  lemma WithUrlsShape(ls: seq<Listing>, urls: seq<string>)
    ensures |WithUrls(ls, urls)| == |ls|
    ensures forall i :: 0 <= i < Min(|ls|, |urls|) ==> WithUrls(ls, urls)[i].url == urls[i]
    ensures forall i :: Min(|ls|, |urls|) <= i < |ls| ==> WithUrls(ls, urls)[i] == ls[i]
    ensures forall i :: 0 <= i < |ls| ==> WithUrls(ls, urls)[i].(url := ls[i].url) == ls[i]
  {
  }

  /** Listings that still had the default url keep it when no page URL reaches them. */
  lemma DefaultUrlBeyondZip(ls: seq<Listing>, urls: seq<string>, i: nat)
    requires i < |ls| && |urls| <= i && ls[i].url == ""
    ensures WithUrls(ls, urls)[i].url == ""
  {
  }

  /** Zipping twice with the same URLs is the same as zipping once. */
  lemma WithUrlsIdempotent(ls: seq<Listing>, urls: seq<string>)
    ensures WithUrls(WithUrls(ls, urls), urls) == WithUrls(ls, urls)
  {
  }

  /** The envelope both scrapers return for a browser run, tagged with the scraper's source. */
  method Envelope(source: string, run: PageRun) returns (r: ScrapeResult)
    ensures run.Crashed? ==> r == Failure(run.error)
    ensures run.Extracted? ==> r == Success(source, WithUrls(run.listings, run.realUrls))
  {
    match run {
      case Crashed(e) =>
        r := Failure(e);
      case Extracted(ls, urls) =>
        var a := new Listing[|ls|](i requires 0 <= i < |ls| => ls[i]);
        assert a[..] == ls;
        AttachUrls(a, urls);
        r := Success(source, a[..]);
    }
  }
}
