/** The sequential part of `scrape_document` (src/stagehand_scripts/scrape_document.py): the
    document-type classification of the URL, the fixed-size chunking of the page text, and the
    result envelope. The browser session, including the page title, the page text and the
    structured extraction, is an uninterpreted input. */
module DocumentScraper {
  import opened Seqs
  import opened Text
  import opened Json
  import opened Entities

  const ChunkSize := 1000

  /** The type recorded for a document, from the domain its URL mentions, first match winning. */
  function DocumentType(url: string): string {
    if Contains(url, "airbnb.com") then "airbnb"
    else if Contains(url, "vrbo.com") then "vrbo"
    else if Contains(url, "docs.google.com") then "google_doc"
    else "html"
  }

  /** A scraped page counts as an accommodation document exactly when its URL mentions Airbnb or
      Vrbo. */
  lemma AccommodationTypeFromUrl(url: string)
    ensures IsAccommodationDocType(DocumentType(url))
            <==> Contains(url, "airbnb.com") || Contains(url, "vrbo.com")
  {
  }

  lemma DivBounds(x: int, c: int)
    requires ChunkSize * c <= x < ChunkSize * c + ChunkSize
    ensures x / ChunkSize == c
  {
  }

  /** The chunking loop: slices of `ChunkSize` characters, starting every `ChunkSize`. */
  method ChunkText(text: string) returns (chunks: seq<string>)
    ensures Join(chunks) == text
    ensures |chunks| == (|text| + ChunkSize - 1) / ChunkSize
    ensures forall k :: 0 <= k < |chunks| ==> 0 < |chunks[k]| <= ChunkSize
    ensures forall k :: 0 <= k < |chunks| - 1 ==> |chunks[k]| == ChunkSize
    ensures forall k :: 0 <= k < |chunks| ==>
      chunks[k] == text[ChunkSize * k..Min(ChunkSize * k + ChunkSize, |text|)]
  {
    chunks := [];
    var i := 0;
    while i < |text|
      invariant i == ChunkSize * |chunks|
      invariant |chunks| > 0 ==> ChunkSize * (|chunks| - 1) < |text|
      invariant forall k :: 0 <= k < |chunks| ==>
        chunks[k] == text[ChunkSize * k..Min(ChunkSize * k + ChunkSize, |text|)]
      invariant Join(chunks) == text[..Min(i, |text|)]
    {
      var e := Min(i + ChunkSize, |text|);
      assert text[..i] + text[i..e] == text[..e];
      chunks := chunks + [text[i..e]];
      i := i + ChunkSize;
    }
    assert text[..|text|] == text;
    DivBounds(|text| + ChunkSize - 1, |chunks|);
  }

  /** What the browser produced for the page: it raised, or it gave the title, the body text and
      the structured logistics extraction. */
  datatype DocRun = DocCrashed(error: string)
                  | DocLoaded(title: string, fullText: string, structured: Value)

  /** The returned dictionary: `{success: False, error}`, or `{success: True, data: {...}}` with the
      full text and chunks (only the printed copy is truncated). */
  datatype DocResult = DocFailure(error: string)
                     | DocSuccess(fullText: string, textChunks: seq<string>,
                                  structuredData: Value, title: string, documentType: string)

  /** `scrape_document`. */
  method ScrapeDocument(url: string, run: DocRun) returns (r: DocResult)
    ensures run.DocCrashed? ==> r == DocFailure(run.error)
    ensures run.DocLoaded? ==>
      r.DocSuccess? && r.title == run.title && r.fullText == run.fullText
      && r.structuredData == run.structured && r.documentType == DocumentType(url)
      && Join(r.textChunks) == run.fullText
      && |r.textChunks| == (|run.fullText| + ChunkSize - 1) / ChunkSize
      && (forall k :: 0 <= k < |r.textChunks| ==> 0 < |r.textChunks[k]| <= ChunkSize)
      && (forall k :: 0 <= k < |r.textChunks| - 1 ==> |r.textChunks[k]| == ChunkSize)
  {
    match run {
      case DocCrashed(e) =>
        r := DocFailure(e);
      case DocLoaded(title, fullText, structured) =>
        var documentType := DocumentType(url);
        var textChunks := ChunkText(fullText);
        r := DocSuccess(fullText, textChunks, structured, title, documentType);
    }
  }
}
