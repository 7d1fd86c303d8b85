/** Parsed documents (documents/models.py, documents/parser.py): the page loop
    and its running totals, and the byte range of each page in the text. */
module Documents {
  import opened Outcomes
  import opened CanonicalNumbers

  datatype Point = Point(x: Number, y: Number)

  datatype Region = Region(polygon: seq<Point>, text: string, confidence: Number)

  datatype Method = EmbeddedText | Ocr

  datatype Backend = Backend(name: string, version: string, model: Option<string>)

  datatype Provenance = Provenance(
    sourceId: string, sha256: string, pageNumber: nat, inputBackend: Backend, extractionBackend: Backend)

  datatype Page = Page(provenance: Provenance, extraction: Method, text: string, regions: seq<Region>)

  datatype Source = Source(sourceId: string, sha256: string, mediaType: string, byteSize: nat)

  datatype Document = Document(source: Source, fingerprint: string, pages: seq<Page>)

  // ---------------------------------------------------------------- UTF-8

  function Utf8Char(c: char): (bytes: seq<nat>)
    ensures 1 <= |bytes| <= 4
  {
    var p := c as int;
    if p < 0x80 then [p]
    else if p < 0x800 then [0xC0 + p / 0x40, 0x80 + p % 0x40]
    else if p < 0x1_0000 then [0xE0 + p / 0x1000, 0x80 + p / 0x40 % 0x40, 0x80 + p % 0x40]
    else [0xF0 + p / 0x4_0000, 0x80 + p / 0x1000 % 0x40, 0x80 + p / 0x40 % 0x40, 0x80 + p % 0x40]
  }

  function Utf8(s: string): seq<nat> {
    if s == "" then [] else Utf8(s[..|s| - 1]) + Utf8Char(s[|s| - 1])
  }

  lemma {:induction false} Utf8Append(a: string, b: string)
    ensures Utf8(a + b) == Utf8(a) + Utf8(b)
  {
    if b == "" {
      assert a + b == a;
    } else {
      assert (a + b)[..|a + b| - 1] == a + b[..|b| - 1];
      Utf8Append(a, b[..|b| - 1]);
    }
  }

  // ---------------------------------------------------------------- the text of a document

  const SEPARATOR: string := "\n\n"

  lemma SeparatorSize()
    ensures |Utf8(SEPARATOR)| == 2
  {
    assert SEPARATOR[..1] == "\n" && "\n"[..0] == "";
  }

  function TextOf(pages: seq<Page>): string {
    if pages == [] then ""
    else if |pages| == 1 then pages[0].text
    else TextOf(pages[..|pages| - 1]) + SEPARATOR + pages[|pages| - 1].text
  }

  /** The encoded size of each page's text. */
  function Sizes(pages: seq<Page>): seq<nat> {
    seq(|pages|, i requires 0 <= i < |pages| => |Utf8(pages[i].text)|)
  }

  /** Where page i starts and ends in the whole text, for pages of these sizes. */
  function StartAt(sizes: seq<nat>, i: nat): nat
    requires i < |sizes|
  {
    if i == 0 then 0 else StartAt(sizes, i - 1) + sizes[i - 1] + 2
  }

  function RangeAt(sizes: seq<nat>, i: nat): (nat, nat)
    requires i < |sizes|
  {
    (StartAt(sizes, i), StartAt(sizes, i) + sizes[i])
  }

  function RangesOf(pages: seq<Page>): seq<(nat, nat)> {
    seq(|pages|, i requires 0 <= i < |pages| => RangeAt(Sizes(pages), i))
  }

  lemma {:induction false} StartOfPrefix(sizes: seq<nat>, n: nat, i: nat)
    requires i < n <= |sizes|
    ensures StartAt(sizes[..n], i) == StartAt(sizes, i)
  {
    if i > 0 { StartOfPrefix(sizes, n, i - 1); }
  }

  lemma {:induction false} LastRangeEnds(pages: seq<Page>)
    requires pages != []
    ensures RangeAt(Sizes(pages), |pages| - 1).1 == |Utf8(TextOf(pages))|
  {
    var n := |pages| - 1;
    if n > 0 {
      LastRangeEnds(pages[..n]);
      assert Sizes(pages)[..n] == Sizes(pages[..n]);
      StartOfPrefix(Sizes(pages), n, n - 1);
      TextSize(pages);
    }
  }

  lemma TextSize(pages: seq<Page>)
    requires |pages| > 1
    ensures
      var init, last := pages[..|pages| - 1], pages[|pages| - 1];
      && Utf8(TextOf(pages)) == Utf8(TextOf(init)) + Utf8(SEPARATOR) + Utf8(last.text)
      && |Utf8(TextOf(pages))| == |Utf8(TextOf(init))| + 2 + |Utf8(last.text)|
  {
    var init, last := pages[..|pages| - 1], pages[|pages| - 1];
    Utf8Append(TextOf(init), SEPARATOR);
    Utf8Append(TextOf(init) + SEPARATOR, last.text);
    SeparatorSize();
  }

  lemma SliceOfPrefix(whole: seq<nat>, prefix: seq<nat>, a: nat, b: nat)
    requires prefix <= whole && a <= b <= |prefix|
    ensures whole[a..b] == prefix[a..b]
  {
  }

  lemma SliceOfSuffix(a: seq<nat>, b: seq<nat>, c: seq<nat>)
    ensures (a + b + c)[|a| + |b|..|a| + |b| + |c|] == c
    ensures a <= a + b + c
  {
  }

  lemma LastRangeIsPage(pages: seq<Page>)
    requires pages != []
    ensures
      var (start, end) := RangeAt(Sizes(pages), |pages| - 1);
      && start <= end <= |Utf8(TextOf(pages))|
      && Utf8(TextOf(pages))[start..end] == Utf8(pages[|pages| - 1].text)
  {
    var n := |pages| - 1;
    LastRangeEnds(pages);
    if n > 0 {
      TextSize(pages);
      SliceOfSuffix(Utf8(TextOf(pages[..n])), Utf8(SEPARATOR), Utf8(pages[n].text));
      SeparatorSize();
    }
  }

  /** Slicing the encoded text at a page's range gives that page's text. */
  lemma {:induction false} RangeIsPage(pages: seq<Page>, i: nat)
    requires i < |pages|
    ensures
      var (start, end) := RangeAt(Sizes(pages), i);
      && start <= end <= |Utf8(TextOf(pages))|
      && Utf8(TextOf(pages))[start..end] == Utf8(pages[i].text)
  {
    var n := |pages| - 1;
    if i == n {
      LastRangeIsPage(pages);
    } else {
      var init := pages[..n];
      RangeIsPage(init, i);
      RangeStays(pages, i);
      TextSize(pages);
      SliceOfSuffix(Utf8(TextOf(init)), Utf8(SEPARATOR), Utf8(pages[n].text));
      var (start, end) := RangeAt(Sizes(pages), i);
      SliceOfPrefix(Utf8(TextOf(pages)), Utf8(TextOf(init)), start, end);
    }
  }

  lemma RangeStays(pages: seq<Page>, i: nat)
    requires i + 1 < |pages|
    ensures RangeAt(Sizes(pages[..|pages| - 1]), i) == RangeAt(Sizes(pages), i)
  {
    var n := |pages| - 1;
    assert Sizes(pages)[..n] == Sizes(pages[..n]);
    StartOfPrefix(Sizes(pages), n, i);
  }

  /** The ranges that serialisation writes, page by page. */
  method PageRanges(sizes: seq<nat>) returns (ranges: seq<(nat, nat)>)
    ensures |ranges| == |sizes| && forall i :: 0 <= i < |sizes| ==> ranges[i] == RangeAt(sizes, i)
  {
    var cursor := 0;
    ranges := [];
    for i := 0 to |sizes|
      invariant |ranges| == i
      invariant cursor == if i == 0 then 0 else StartAt(sizes, i - 1) + sizes[i - 1]
      invariant forall k :: 0 <= k < i ==> ranges[k] == RangeAt(sizes, k)
    {
      if i > 0 { cursor := cursor + 2; }
      var start := cursor;
      cursor := cursor + sizes[i];
      ranges := ranges + [(start, cursor)];
    }
  }

  /** The ranges that are read back are checked against the texts. */
  method CheckRanges(sizes: seq<nat>, ranges: seq<(nat, nat)>) returns (ok: bool)
    requires |ranges| == |sizes|
    ensures ok <==> forall i :: 0 <= i < |sizes| ==> ranges[i] == RangeAt(sizes, i)
  {
    var cursor := 0;
    for i := 0 to |sizes|
      invariant cursor == if i == 0 then 0 else StartAt(sizes, i - 1) + sizes[i - 1]
      invariant forall k :: 0 <= k < i ==> ranges[k] == RangeAt(sizes, k)
    {
      if i > 0 { cursor := cursor + 2; }
      if ranges[i].0 != cursor { return false; }
      cursor := cursor + sizes[i];
      if ranges[i].1 != cursor { return false; }
    }
    ok := true;
  }

  // ---------------------------------------------------------------- validity

  predicate InUnit(n: Number) {
    n.Zero? || (!n.negative && AllDigits(n.magnitude.digits)
                && !ScaledLess(1, 0, NatOf(n.magnitude.digits), n.magnitude.exponent))
  }

  predicate ValidPoint(p: Point) {
    NormalNumber(p.x) && NormalNumber(p.y)
  }

  predicate ValidRegion(r: Region) {
    && |r.polygon| == 4 && (forall i :: 0 <= i < 4 ==> ValidPoint(r.polygon[i]))
    && r.text != "" && NormalNumber(r.confidence) && InUnit(r.confidence)
  }

  function RegionText(regions: seq<Region>): string {
    if regions == [] then ""
    else if |regions| == 1 then regions[0].text
    else RegionText(regions[..|regions| - 1]) + "\n" + regions[|regions| - 1].text
  }

  predicate ValidPage(p: Page) {
    && (p.extraction == EmbeddedText ==> p.regions == [])
    && (p.extraction == Ocr ==> p.text == RegionText(p.regions))
    && forall i :: 0 <= i < |p.regions| ==> ValidRegion(p.regions[i])
  }

  predicate ValidBackend(b: Backend) {
    b.name != "" && b.version != "" && b.model != Some("")
  }

  predicate ValidDocument(d: Document) {
    forall i :: 0 <= i < |d.pages| ==>
      && ValidPage(d.pages[i])
      && d.pages[i].provenance.pageNumber == i + 1
      && d.pages[i].provenance.sourceId == d.source.sourceId
      && d.pages[i].provenance.sha256 == d.source.sha256
      && ValidBackend(d.pages[i].provenance.inputBackend) && ValidBackend(d.pages[i].provenance.extractionBackend)
  }

  // ---------------------------------------------------------------- the parser's page loop

  datatype Limits = Limits(
    maxPages: nat, maxPageCharacters: nat, maxTotalCharacters: nat, maxPageBytes: nat, maxTotalBytes: nat,
    maxRegions: nat)

  /** What the backends give for a page: its embedded text, which is missing
      for an image and blank for a scan, and the regions that recognition
      finds, or none when a backend or the raster limits refuse the page. */
  datatype PageInput = PageInput(embedded: Option<string>, blank: bool, regions: Option<seq<Region>>)

  datatype Engine = Engine(input: Backend, ocr: Backend)

  predicate Usable(input: PageInput, limits: Limits) {
    UsesText(input)
    || (input.regions.Some? && |input.regions.value| <= limits.maxRegions
        && forall i :: 0 <= i < |input.regions.value| ==> ValidRegion(input.regions.value[i]))
  }

  predicate UsesText(input: PageInput) {
    input.embedded.Some? && !input.blank
  }

  function PageFor(source: Source, engine: Engine, input: PageInput, number: nat): Page
    requires UsesText(input) || input.regions.Some?
  {
    if UsesText(input) then
      Page(Provenance(source.sourceId, source.sha256, number, engine.input, engine.input), EmbeddedText,
           input.embedded.value, [])
    else
      Page(Provenance(source.sourceId, source.sha256, number, engine.input, engine.ocr), Ocr,
           RegionText(input.regions.value), input.regions.value)
  }

  predicate PageFits(text: string, limits: Limits) {
    |text| <= limits.maxPageCharacters && |Utf8(text)| <= limits.maxPageBytes
  }

  predicate TextFits(text: string, limits: Limits) {
    |text| <= limits.maxTotalCharacters && |Utf8(text)| <= limits.maxTotalBytes
  }

  /** The running totals after one more page, unless a limit is exceeded. */
  function EnforceTextLimits(text: string, limits: Limits, characters: nat, bytes: nat, separator: bool): Result<(nat, nat)> {
    var size := if separator then 2 else 0;
    var characters', bytes' := characters + size + |text|, bytes + size + |Utf8(text)|;
    if !PageFits(text, limits) then Err
    else if characters' > limits.maxTotalCharacters || bytes' > limits.maxTotalBytes then Err
    else Ok((characters', bytes'))
  }

  /** The pages that the inputs make, as far as they can be made. */
  predicate AllUsable(inputs: seq<PageInput>, limits: Limits) {
    forall i :: 0 <= i < |inputs| ==> Usable(inputs[i], limits)
  }

  function PagesFor(source: Source, engine: Engine, inputs: seq<PageInput>, limits: Limits): seq<Page>
    requires AllUsable(inputs, limits)
  {
    seq(|inputs|, i requires 0 <= i < |inputs| => PageFor(source, engine, inputs[i], i + 1))
  }

  /** Within every limit. */
  predicate Acceptable(source: Source, engine: Engine, inputs: seq<PageInput>, limits: Limits) {
    && AllUsable(inputs, limits)
    && var pages := PagesFor(source, engine, inputs, limits);
       (forall i :: 0 <= i < |pages| ==> PageFits(pages[i].text, limits)) && TextFits(TextOf(pages), limits)
  }

  /** The loop over the pages. It succeeds exactly when every page can be made
      and every limit holds, of each page and of the joined text. */
  method ParsePages(source: Source, fingerprint: string, engine: Engine, inputs: seq<PageInput>, limits: Limits)
    returns (document: Result<Document>)
    requires ValidBackend(engine.input) && ValidBackend(engine.ocr)
    ensures document.Ok? <==>
      0 < |inputs| <= limits.maxPages && Acceptable(source, engine, inputs, limits)
    ensures document.Ok? ==>
      && document.value == Document(source, fingerprint, PagesFor(source, engine, inputs, limits))
      && ValidDocument(document.value) && TextFits(TextOf(document.value.pages), limits)
  {
    if inputs == [] || |inputs| > limits.maxPages { return Err; }
    var pages: seq<Page> := [];
    var characters, bytes := 0, 0;
    for i := 0 to |inputs|
      invariant Parsed(source, engine, inputs[..i], limits, pages, characters, bytes)
    {
      var next := ParseOne(source, engine, inputs, limits, pages, characters, bytes, i);
      if next.Err? {
        NotAcceptable(source, engine, inputs, limits, i + 1);
        return Err;
      }
      pages, characters, bytes := pages + [next.value.0], next.value.1, next.value.2;
    }
    assert inputs[..|inputs|] == inputs;
    PagesAreValid(source, fingerprint, engine, inputs, limits);
    document := Ok(Document(source, fingerprint, pages));
  }

  lemma PagesAreValid(source: Source, fingerprint: string, engine: Engine, inputs: seq<PageInput>, limits: Limits)
    requires ValidBackend(engine.input) && ValidBackend(engine.ocr) && AllUsable(inputs, limits)
    ensures ValidDocument(Document(source, fingerprint, PagesFor(source, engine, inputs, limits)))
  {
    forall i | 0 <= i < |inputs| ensures ValidPage(PageFor(source, engine, inputs[i], i + 1)) {
      assert Usable(inputs[i], limits);
    }
  }

  /** The loop's variables after some inputs. */
  ghost predicate Parsed(
    source: Source, engine: Engine, inputs: seq<PageInput>, limits: Limits, pages: seq<Page>, characters: nat, bytes: nat)
  {
    && Acceptable(source, engine, inputs, limits) && pages == PagesFor(source, engine, inputs, limits)
    && characters == |TextOf(pages)| && bytes == |Utf8(TextOf(pages))|
  }

  /** One turn of the loop. */
  method ParseOne(
    source: Source, engine: Engine, inputs: seq<PageInput>, limits: Limits, pages: seq<Page>, characters: nat, bytes: nat,
    i: nat)
    returns (next: Result<(Page, nat, nat)>)
    requires i < |inputs| && Parsed(source, engine, inputs[..i], limits, pages, characters, bytes)
    ensures next.Ok? <==> Acceptable(source, engine, inputs[..i + 1], limits)
    ensures next.Ok? ==>
      Parsed(source, engine, inputs[..i + 1], limits, pages + [next.value.0], next.value.1, next.value.2)
  {
    var now := inputs[..i + 1];
    assert now == inputs[..i] + [inputs[i]];
    if !Usable(inputs[i], limits) {
      assert now[i] == inputs[i];
      return Err;
    }
    var page := PageFor(source, engine, inputs[i], i + 1);
    assert PagesFor(source, engine, now, limits) == pages + [page];
    TextGrows(pages, page);
    var totals := EnforceTextLimits(page.text, limits, characters, bytes, i > 0);
    if totals.Err? {
      assert (pages + [page])[i] == page;
      return Err;
    }
    next := Ok((page, totals.value.0, totals.value.1));
  }

  lemma TextGrows(pages: seq<Page>, page: Page)
    ensures |TextOf(pages + [page])| == |TextOf(pages)| + (if pages == [] then 0 else 2) + |page.text|
    ensures |Utf8(TextOf(pages + [page]))| ==
              |Utf8(TextOf(pages))| + (if pages == [] then 0 else 2) + |Utf8(page.text)|
  {
    assert (pages + [page])[..|pages|] == pages;
    if pages != [] { TextSize(pages + [page]); }
  }

  /** A prefix that exceeds a limit is never made good by more pages. */
  lemma {:induction false} NotAcceptable(
    source: Source, engine: Engine, inputs: seq<PageInput>, limits: Limits, n: nat)
    requires n <= |inputs| && !Acceptable(source, engine, inputs[..n], limits)
    ensures !Acceptable(source, engine, inputs, limits)
    decreases |inputs| - n
  {
    if n == |inputs| {
      assert inputs[..n] == inputs;
    } else {
      if Acceptable(source, engine, inputs[..n + 1], limits) {
        OneLess(source, engine, inputs[..n + 1], limits);
        assert inputs[..n + 1][..n] == inputs[..n];
      }
      NotAcceptable(source, engine, inputs, limits, n + 1);
    }
  }

  lemma OneLess(source: Source, engine: Engine, inputs: seq<PageInput>, limits: Limits)
    requires inputs != [] && Acceptable(source, engine, inputs, limits)
    ensures Acceptable(source, engine, inputs[..|inputs| - 1], limits)
  {
    var n := |inputs| - 1;
    var pages := PagesFor(source, engine, inputs, limits);
    assert PagesFor(source, engine, inputs[..n], limits) == pages[..n];
    assert pages == pages[..n] + [pages[n]];
    TextGrows(pages[..n], pages[n]);
  }
}
