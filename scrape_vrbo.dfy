/** The sequential part of `scrape_vrbo` (src/stagehand_scripts/scrape_vrbo.py): the search URL,
    the URL zip and the result envelope. The browser session and `urllib.parse.quote` are
    uninterpreted inputs. The Vrbo search takes no price bounds, so its URL never carries
    one. */
module Vrbo {
  import opened Text
  import opened Listings

  const Source := "vrbo"
  const Site := "https://www.vrbo.com/search?destination="

  /** The search page for a quoted destination, the stay dates and the number of guests. */
  function SearchUrl(quote: string -> string, location: string, checkin: string,
                     checkout: string, adults: int): string
  {
    Site + quote(location) + ("&startDate=" + checkin) + ("&endDate=" + checkout)
      + ("&adults=" + IntToString(adults))
  }

  /** `scrape_vrbo`: builds the URL and returns the envelope for what the browser produced. */
  method Scrape(quote: string -> string, location: string, checkin: string, checkout: string,
                adults: int, run: PageRun)
    returns (searchUrl: string, r: ScrapeResult)
    ensures searchUrl == SearchUrl(quote, location, checkin, checkout, adults)
    ensures run.Crashed? ==> r == Failure(run.error)
    ensures run.Extracted? ==> r == Success(Source, WithUrls(run.listings, run.realUrls))
  {
    searchUrl := SearchUrl(quote, location, checkin, checkout, adults);
    r := Envelope(Source, run);
  }

  /** The quoted destination comes first, then `startDate`, `endDate` and `adults`, in order. */
  lemma SearchUrlOrder(quote: string -> string, location: string, checkin: string,
                       checkout: string, adults: int)
    ensures var url := SearchUrl(quote, location, checkin, checkout, adults);
      var p1 := |Site + quote(location)|;
      var p2 := p1 + |"&startDate=" + checkin|;
      var p3 := p2 + |"&endDate=" + checkout|;
      StartsWith(url, Site + quote(location))
      && OccursAt(url, "&startDate=" + checkin, p1)
      && OccursAt(url, "&endDate=" + checkout, p2)
      && OccursAt(url, "&adults=" + IntToString(adults), p3)
      && p1 < p2 < p3
  {
    var a := Site + quote(location);
    var b := "&startDate=" + checkin;
    var c := "&endDate=" + checkout;
    var d := "&adults=" + IntToString(adults);
    OccursInParts(a, b, c, d);
  }
}
