/** The canonical JSON boundary of the document parser (documents/canonical.py,
    documents/models.py to_json): a result is written with its counts and byte
    ranges, and read back only if all of them agree. */
module DocumentBoundary {
  import opened Outcomes
  import opened Sorting
  import opened CanonicalNumbers
  import opened CanonicalJson
  import opened Documents
  import opened HashTexts

  // ---------------------------------------------------------------- objects with fixed fields

  predicate DistinctTexts(keys: seq<string>) {
    forall i, j :: 0 <= i < j < |keys| ==> keys[i] != keys[j]
  }

  function Fields(keys: seq<string>, values: seq<Json>): Json
    requires |keys| == |values|
  {
    Object(seq(|keys|, i requires 0 <= i < |keys| => Entry(keys[i], values[i])))
  }

  function Find(members: seq<Entry<Norm>>, key: string): Option<Norm> {
    if members == [] then None
    else if members[0].key == key then Some(members[0].value)
    else Find(members[1..], key)
  }

  /** The values of an object whose keys are exactly these, in their order. */
  function RequireFields(n: Norm, keys: seq<string>): (values: Option<seq<Norm>>)
    ensures values.Some? ==> |values.value| == |keys|
  {
    if n.NormObject? && |n.members| == |keys| && (forall i :: 0 <= i < |keys| ==> Find(n.members, keys[i]).Some?)
    then Some(seq(|keys|, i requires 0 <= i < |keys| => Find(n.members, keys[i]).value))
    else None
  }

  function Normals(values: seq<Json>): seq<Norm> {
    seq(|values|, i requires 0 <= i < |values| => Normal(values[i]))
  }

  lemma {:induction false} FindMember(members: seq<Entry<Norm>>, e: Entry<Norm>)
    requires e in members && forall f :: f in members && f.key == e.key ==> f == e
    ensures Find(members, e.key) == Some(e.value)
  {
    if members[0].key == e.key {
      assert members[0] in members;
    } else {
      assert members == [members[0]] + members[1..];
      FindMember(members[1..], e);
    }
  }

  /** Fields that were written are found again, each with its value. */
  lemma FieldsAreRead(keys: seq<string>, values: seq<Json>)
    requires |keys| == |values| && DistinctTexts(keys)
    ensures RequireFields(Normal(Fields(keys, values)), keys) == Some(Normals(values))
  {
    var members := Fields(keys, values).members;
    var normals := NormalMembers(members);
    var sorted := SortEntries(normals);
    assert Normal(Fields(keys, values)) == NormObject(sorted);
    SortElements(normals, ByKey());
    forall i | 0 <= i < |keys| ensures Find(sorted, keys[i]) == Some(Normal(values[i])) {
      var e := normals[i];
      assert e in sorted;
      forall f | f in sorted && f.key == e.key ensures f == e {
        assert f in normals;
        var j :| 0 <= j < |normals| && normals[j] == f;
        assert keys[i] == keys[j];
      }
      FindMember(sorted, e);
    }
    var read := RequireFields(NormObject(sorted), keys);
    assert |sorted| == |keys| && read.Some?;
    assert read.value == Normals(values);
  }

  lemma FieldsAreValid(keys: seq<string>, values: seq<Json>)
    requires |keys| == |values| && DistinctTexts(keys)
    ensures Valid(Fields(keys, values)) <==> forall i :: 0 <= i < |values| ==> Valid(values[i])
    ensures Encodable(Fields(keys, values)) <==> forall i :: 0 <= i < |values| ==> Encodable(values[i])
  {
    var members := Fields(keys, values).members;
    assert forall i :: 0 <= i < |values| ==> members[i].value == values[i];
  }

  // ---------------------------------------------------------------- writing

  const POINT: seq<string> := ["x", "y"]
  const REGION: seq<string> := ["polygon", "text", "confidence"]
  const BACKEND: seq<string> := ["name", "version"]
  const MODEL: seq<string> := ["name", "version", "model"]
  const PROVENANCE: seq<string> := ["sourceId", "sourceSha256", "pageNumber", "inputBackend", "extractionBackend"]
  const PAGE: seq<string> := [
    "provenance", "extractionMethod", "text", "characterCount", "utf8ByteCount", "ocrRegions", "utf8StartByte",
    "utf8EndByte"]
  const SOURCE: seq<string> := ["sourceId", "sha256", "mediaType", "byteSize"]
  const RESULT: seq<string> := [
    "source", "parserConfigFingerprint", "text", "pageCount", "totalCharacters", "totalTextUtf8Bytes", "pages"]
  const RESPONSE: seq<string> := ["schemaVersion", "requestId", "ok", "result"]

  lemma KeysAreDistinct()
    ensures DistinctTexts(POINT) && DistinctTexts(REGION) && DistinctTexts(BACKEND) && DistinctTexts(MODEL)
    ensures DistinctTexts(SOURCE) && DistinctTexts(RESPONSE)
  {
  }

  lemma LongKeysAreDistinct()
    ensures DistinctTexts(PROVENANCE) && DistinctTexts(PAGE) && DistinctTexts(RESULT)
  {
  }

  lemma RealIsNumber(n: Number)
    requires NormalNumber(n)
    ensures Valid(Real(FloatOf(n))) && Encodable(Real(FloatOf(n))) && Normal(Real(FloatOf(n))) == NormNumber(n)
  {
    FloatIsNumber(n);
  }

  function PointJson(p: Point): Json
    requires ValidPoint(p)
  {
    Fields(POINT, [Real(FloatOf(p.x)), Real(FloatOf(p.y))])
  }

  function RegionJson(r: Region): Json
    requires ValidRegion(r)
  {
    Fields(REGION, [
      Array(seq(|r.polygon|, i requires 0 <= i < |r.polygon| => PointJson(r.polygon[i]))), Text(r.text),
      Real(FloatOf(r.confidence))])
  }

  function BackendJson(b: Backend): Json {
    match b.model
    case None => Fields(BACKEND, [Text(b.name), Text(b.version)])
    case Some(model) => Fields(MODEL, [Text(b.name), Text(b.version), Text(model)])
  }

  function ProvenanceJson(p: Provenance): Json {
    Fields(PROVENANCE, [
      Text(p.sourceId), Text(p.sha256), Integer(p.pageNumber), BackendJson(p.inputBackend),
      BackendJson(p.extractionBackend)])
  }

  function MethodText(m: Method): string {
    match m
    case EmbeddedText => "embedded_text"
    case Ocr => "ocr"
  }

  function RegionsJson(regions: seq<Region>): Json
    requires forall i :: 0 <= i < |regions| ==> ValidRegion(regions[i])
  {
    Array(seq(|regions|, i requires 0 <= i < |regions| => RegionJson(regions[i])))
  }

  function PageJson(p: Page, range: (nat, nat)): Json
    requires ValidPage(p)
  {
    Fields(PAGE, [
      ProvenanceJson(p.provenance), Text(MethodText(p.extraction)), Text(p.text), Integer(|p.text|),
      Integer(|Utf8(p.text)|), RegionsJson(p.regions), Integer(range.0), Integer(range.1)])
  }

  function SourceJson(s: Source): Json {
    Fields(SOURCE, [Text(s.sourceId), Text(s.sha256), Text(s.mediaType), Integer(s.byteSize)])
  }

  function PagesJson(pages: seq<Page>, ranges: seq<(nat, nat)>): Json
    requires |ranges| == |pages| && forall i :: 0 <= i < |pages| ==> ValidPage(pages[i])
  {
    Array(seq(|pages|, i requires 0 <= i < |pages| => PageJson(pages[i], ranges[i])))
  }

  function DocumentJson(d: Document): Json
    requires ValidDocument(d)
  {
    var text := TextOf(d.pages);
    Fields(RESULT, [
      SourceJson(d.source), Text(d.fingerprint), Text(text), Integer(|d.pages|), Integer(|text|),
      Integer(|Utf8(text)|), PagesJson(d.pages, RangesOf(d.pages))])
  }

  function ResponseJson(requestId: string, d: Document): Json
    requires ValidDocument(d)
  {
    Fields(RESPONSE, [Integer(1), Text(requestId), Bool(true), DocumentJson(d)])
  }

  // ---------------------------------------------------------------- reading

  /** A number whose text has neither a point nor an exponent is an integer. */
  predicate IsInteger(n: Number) {
    n.Zero? || (n.magnitude.exponent >= 0 && |n.magnitude.digits| + n.magnitude.exponent <= 21
                && AllDigits(n.magnitude.digits))
  }

  function Magnitude(n: Number): nat
    requires IsInteger(n)
  {
    if n.Zero? then 0 else NatOf(n.magnitude.digits) * Pow10(n.magnitude.exponent)
  }

  function ReadNat(n: Norm): Option<nat> {
    if n.NormNumber? && IsInteger(n.number) && (n.number.Signed? ==> !n.number.negative)
    then Some(Magnitude(n.number)) else None
  }

  function ReadNonEmpty(n: Norm): Option<string> {
    if n.NormText? && n.s != "" then Some(n.s) else None
  }

  predicate IsMediaType(s: string) {
    s == "application/pdf" || s == "image/png" || s == "image/jpeg" || s == "image/webp"
  }

  function ReadAll<T>(items: seq<Norm>, read: Norm -> Option<T>): Option<seq<T>> {
    if forall i :: 0 <= i < |items| ==> read(items[i]).Some?
    then Some(seq(|items|, i requires 0 <= i < |items| => read(items[i]).value))
    else None
  }

  function ReadPoint(n: Norm): Option<Point> {
    match RequireFields(n, POINT)
    case None => None
    case Some(f) => if f[0].NormNumber? && f[1].NormNumber? then Some(Point(f[0].number, f[1].number)) else None
  }

  function ReadRegion(n: Norm): Option<Region> {
    match RequireFields(n, REGION)
    case None => None
    case Some(f) =>
      if !f[0].NormArray? || |f[0].items| != 4 || ReadNonEmpty(f[1]).None? || !f[2].NormNumber? then None
      else match ReadAll(f[0].items, ReadPoint)
           case None => None
           case Some(points) => if InUnit(f[2].number) then Some(Region(points, f[1].s, f[2].number)) else None
  }

  function ReadBackend(n: Norm): Option<Backend> {
    match RequireFields(n, BACKEND)
    case Some(f) =>
      if ReadNonEmpty(f[0]).Some? && ReadNonEmpty(f[1]).Some? then Some(Backend(f[0].s, f[1].s, None)) else None
    case None =>
      match RequireFields(n, MODEL)
      case None => None
      case Some(f) =>
        if ReadNonEmpty(f[0]).None? || ReadNonEmpty(f[1]).None? then None
        else if f[2].NormNull? then Some(Backend(f[0].s, f[1].s, None))
        else if ReadNonEmpty(f[2]).Some? then Some(Backend(f[0].s, f[1].s, Some(f[2].s)))
        else None
  }

  function ReadProvenance(n: Norm, source: Source): Option<Provenance> {
    match RequireFields(n, PROVENANCE)
    case None => None
    case Some(f) => ProvenanceOf(f, source)
  }

  function ProvenanceOf(f: seq<Norm>, source: Source): Option<Provenance>
    requires |f| == 5
  {
    if f[0] != NormText(source.sourceId) || f[1] != NormText(source.sha256) || !IsSha256(source.sha256) then None
    else if ReadNat(f[2]).None? || ReadNat(f[2]).value == 0 then None
    else if ReadBackend(f[3]).None? || ReadBackend(f[4]).None? then None
    else Some(Provenance(source.sourceId, source.sha256, ReadNat(f[2]).value, ReadBackend(f[3]).value,
                         ReadBackend(f[4]).value))
  }

  function ReadMethod(n: Norm): Option<Method> {
    if n == NormText("embedded_text") then Some(EmbeddedText)
    else if n == NormText("ocr") then Some(Ocr)
    else None
  }

  /** A page and its byte range. */
  function ReadPage(n: Norm, source: Source): Option<(Page, (nat, nat))> {
    match RequireFields(n, PAGE)
    case None => None
    case Some(f) => PageOf(f, source)
  }

  function PageOf(f: seq<Norm>, source: Source): Option<(Page, (nat, nat))>
    requires |f| == 8
  {
    var provenance, method_ := ReadProvenance(f[0], source), ReadMethod(f[1]);
    if provenance.None? || method_.None? || !f[2].NormText? || !f[5].NormArray? then None
    else if ReadNat(f[3]) != Some(|f[2].s|) || ReadNat(f[4]) != Some(|Utf8(f[2].s)|) then None
    else match ReadAll(f[5].items, ReadRegion)
         case None => None
         case Some(regions) =>
           var page := Page(provenance.value, method_.value, f[2].s, regions);
           if (page.extraction == EmbeddedText && regions != [])
             || (page.extraction == Ocr && page.text != RegionText(regions)) then None
           else if ReadNat(f[6]).None? || ReadNat(f[7]).None? || ReadNat(f[7]).value < ReadNat(f[6]).value then None
           else Some((page, (ReadNat(f[6]).value, ReadNat(f[7]).value)))
  }

  function ReadSource(n: Norm): Option<Source> {
    match RequireFields(n, SOURCE)
    case None => None
    case Some(f) => SourceOf(f)
  }

  function SourceOf(f: seq<Norm>): Option<Source>
    requires |f| == 4
  {
    if ReadNonEmpty(f[0]).None? || !f[1].NormText? || !f[2].NormText? || ReadNat(f[3]).None? then None
    else if !IsHashText(f[1].s) || !IsMediaType(f[2].s) then None
    else Some(Source(f[0].s, f[1].s, f[2].s, ReadNat(f[3]).value))
  }

  datatype Decoded = Decoded(document: Document, text: string, ranges: seq<(nat, nat)>)

  /** The pages are numbered from one. */
  predicate Numbered(pages: seq<Page>) {
    forall i :: 0 <= i < |pages| ==> pages[i].provenance.pageNumber == i + 1
  }

  function ReadPages(n: Norm, source: Source): Option<seq<(Page, (nat, nat))>> {
    if n.NormArray? then ReadAll(n.items, PageReader(source)) else None
  }

  function PageReader(source: Source): Norm -> Option<(Page, (nat, nat))> {
    (n: Norm) => ReadPage(n, source)
  }

  /** Reads a result; its counts, its text and its ranges must agree. */
  function ReadResult(n: Norm): Option<Decoded> {
    match RequireFields(n, RESULT)
    case None => None
    case Some(f) => ResultOf(f)
  }

  function ResultOf(f: seq<Norm>): Option<Decoded>
    requires |f| == 7
  {
    var source := ReadSource(f[0]);
    if source.None? || !f[1].NormText? || !IsHashText(f[1].s) || !f[2].NormText? then None
    else match ReadPages(f[6], source.value)
         case None => None
         case Some(read) =>
           var pages, ranges := PagesOf(read), RangesIn(read);
           var text := TextOf(pages);
           if ReadNat(f[3]) != Some(|pages|) || !Numbered(pages) || f[2].s != text then None
           else if ReadNat(f[4]) != Some(|text|) || ReadNat(f[5]) != Some(|Utf8(text)|) then None
           else if ranges != RangesOf(pages) then None
           else Some(Decoded(Document(source.value, f[1].s, pages), text, ranges))
  }

  function PagesOf(read: seq<(Page, (nat, nat))>): seq<Page> {
    seq(|read|, i requires 0 <= i < |read| => read[i].0)
  }

  function RangesIn(read: seq<(Page, (nat, nat))>): seq<(nat, nat)> {
    seq(|read|, i requires 0 <= i < |read| => read[i].1)
  }

  /** The decoder. What it accepts of a normal value is a proper document. */
  method ResultFromJson(n: Norm) returns (r: Option<Decoded>)
    ensures r == ReadResult(n)
    ensures IsNormal(n) && r.Some? ==> AcceptedResult(r.value) && (SoundResult(r.value) <==> ProperHashes(r.value.document))
  {
    r := ScanResult(n);
    if IsNormal(n) && r.Some? { AcceptedResultIsDocument(n); }
  }

  /** A cursor runs over the texts and checks every range. */
  method ScanResult(n: Norm) returns (r: Option<Decoded>)
    ensures r == ReadResult(n)
  {
    var fields := RequireFields(n, RESULT);
    if fields.None? { return None; }
    var f := fields.value;
    var source := ReadSource(f[0]);
    if source.None? || !f[1].NormText? || !IsHashText(f[1].s) || !f[2].NormText? { return None; }
    var read := ReadPages(f[6], source.value);
    if read.None? { return None; }
    var pages, ranges := PagesOf(read.value), RangesIn(read.value);
    var text := TextOf(pages);
    if ReadNat(f[3]) != Some(|pages|) || !Numbered(pages) || f[2].s != text { return None; }
    if ReadNat(f[4]) != Some(|text|) || ReadNat(f[5]) != Some(|Utf8(text)|) { return None; }
    var ok := CheckRanges(Sizes(pages), ranges);
    assert ok <==> ranges == RangesOf(pages);
    if !ok { return None; }
    r := Some(Decoded(Document(source.value, f[1].s, pages), text, ranges));
  }

  // ---------------------------------------------------------------- what was written is read

  lemma NatIsRead(k: nat)
    requires Encodable(Integer(k))
    ensures ReadNat(Normal(Integer(k))) == Some(k)
  {
    IntegersAreNumbers(k);
    assert Pow10(0) == 1;
  }

  lemma PointIsRead(p: Point)
    requires ValidPoint(p)
    ensures ReadPoint(Normal(PointJson(p))) == Some(p)
  {
    KeysAreDistinct();
    var values := [Real(FloatOf(p.x)), Real(FloatOf(p.y))];
    FieldsAreRead(POINT, values);
    RealIsNumber(p.x);
    RealIsNumber(p.y);
  }

  lemma RegionIsRead(r: Region)
    requires ValidRegion(r)
    ensures ReadRegion(Normal(RegionJson(r))) == Some(r)
  {
    KeysAreDistinct();
    var points := seq(|r.polygon|, i requires 0 <= i < |r.polygon| => PointJson(r.polygon[i]));
    var values := [Array(points), Text(r.text), Real(FloatOf(r.confidence))];
    FieldsAreRead(REGION, values);
    RealIsNumber(r.confidence);
    var items := Normal(Array(points)).items;
    forall i | 0 <= i < |items| ensures ReadPoint(items[i]) == Some(r.polygon[i]) { PointIsRead(r.polygon[i]); }
    assert ReadAll(items, ReadPoint).value == r.polygon;
  }

  lemma BackendIsRead(b: Backend)
    requires ValidBackend(b)
    ensures ReadBackend(Normal(BackendJson(b))) == Some(b)
  {
    KeysAreDistinct();
    match b.model {
      case None => FieldsAreRead(BACKEND, [Text(b.name), Text(b.version)]);
      case Some(model) =>
        var values := [Text(b.name), Text(b.version), Text(model)];
        FieldsAreRead(MODEL, values);
        FieldCount(MODEL, values, BACKEND);
    }
  }

  /** An object with another number of fields is refused. */
  lemma FieldCount(keys: seq<string>, values: seq<Json>, expected: seq<string>)
    requires |keys| == |values| && |expected| != |keys|
    ensures RequireFields(Normal(Fields(keys, values)), expected) == None
  {
    var normals := NormalMembers(Fields(keys, values).members);
    SortElements(normals, ByKey());
    assert Normal(Fields(keys, values)) == NormObject(SortEntries(normals));
  }

  lemma ProvenanceIsRead(p: Provenance, source: Source)
    requires ValidBackend(p.inputBackend) && ValidBackend(p.extractionBackend) && p.pageNumber > 0
    requires p.sourceId == source.sourceId && p.sha256 == source.sha256 && IsSha256(source.sha256)
    requires Encodable(Integer(p.pageNumber))
    ensures ReadProvenance(Normal(ProvenanceJson(p)), source) == Some(p)
  {
    LongKeysAreDistinct();
    NatIsRead(p.pageNumber);
    BackendIsRead(p.inputBackend);
    BackendIsRead(p.extractionBackend);
    var a, b, c := Text(p.sourceId), Text(p.sha256), Integer(p.pageNumber);
    var d, e := BackendJson(p.inputBackend), BackendJson(p.extractionBackend);
    FieldsAreRead(PROVENANCE, [a, b, c, d, e]);
    FiveNormals(a, b, c, d, e);
    ProvenanceOfParts(Normals([a, b, c, d, e]), p, source);
  }

  lemma ProvenanceOfParts(f: seq<Norm>, p: Provenance, source: Source)
    requires |f| == 5 && f[0] == NormText(p.sourceId) && f[1] == NormText(p.sha256)
    requires p.sourceId == source.sourceId && p.sha256 == source.sha256 && IsSha256(source.sha256)
    requires ReadNat(f[2]) == Some(p.pageNumber) && p.pageNumber > 0
    requires ReadBackend(f[3]) == Some(p.inputBackend) && ReadBackend(f[4]) == Some(p.extractionBackend)
    ensures ProvenanceOf(f, source) == Some(p)
  {
  }

  lemma RegionsAreRead(regions: seq<Region>)
    requires forall i :: 0 <= i < |regions| ==> ValidRegion(regions[i])
    ensures Normal(RegionsJson(regions)).NormArray?
    ensures ReadAll(Normal(RegionsJson(regions)).items, ReadRegion) == Some(regions)
  {
    var items := Normal(RegionsJson(regions)).items;
    forall i | 0 <= i < |items| ensures ReadRegion(items[i]) == Some(regions[i]) { RegionIsRead(regions[i]); }
    assert ReadAll(items, ReadRegion).value == regions;
  }

  function PageValues(p: Page, range: (nat, nat)): seq<Json>
    requires ValidPage(p)
  {
    [ProvenanceJson(p.provenance), Text(MethodText(p.extraction)), Text(p.text), Integer(|p.text|),
     Integer(|Utf8(p.text)|), RegionsJson(p.regions), Integer(range.0), Integer(range.1)]
  }

  /** The eight values of a page, each of which is read. */
  lemma PageOfParts(provenance: Json, regions: Json, p: Page, range: (nat, nat), source: Source)
    requires ValidPage(p) && range.0 <= range.1
    requires ReadProvenance(Normal(provenance), source) == Some(p.provenance)
    requires Normal(regions).NormArray? && ReadAll(Normal(regions).items, ReadRegion) == Some(p.regions)
    requires Encodable(Integer(|p.text|)) && Encodable(Integer(|Utf8(p.text)|))
    requires Encodable(Integer(range.0)) && Encodable(Integer(range.1))
    ensures PageOf(Normals([provenance, Text(MethodText(p.extraction)), Text(p.text), Integer(|p.text|),
                            Integer(|Utf8(p.text)|), regions, Integer(range.0), Integer(range.1)]), source)
              == Some((p, range))
  {
    var method_, text, n, bytes := Text(MethodText(p.extraction)), Text(p.text), Integer(|p.text|), Integer(|Utf8(p.text)|);
    var start, end := Integer(range.0), Integer(range.1);
    EightNormals(provenance, method_, text, n, bytes, regions, start, end);
    NatIsRead(|p.text|);
    NatIsRead(|Utf8(p.text)|);
    NatIsRead(range.0);
    NatIsRead(range.1);
    MethodIsRead(p.extraction);
    PageOfEight(Normals([provenance, method_, text, n, bytes, regions, start, end]), p, range, source);
  }

  lemma PageOfEight(f: seq<Norm>, p: Page, range: (nat, nat), source: Source)
    requires ValidPage(p) && range.0 <= range.1 && |f| == 8
    requires ReadProvenance(f[0], source) == Some(p.provenance) && ReadMethod(f[1]) == Some(p.extraction)
    requires f[2] == NormText(p.text) && ReadNat(f[3]) == Some(|p.text|) && ReadNat(f[4]) == Some(|Utf8(p.text)|)
    requires f[5].NormArray? && ReadAll(f[5].items, ReadRegion) == Some(p.regions)
    requires ReadNat(f[6]) == Some(range.0) && ReadNat(f[7]) == Some(range.1)
    ensures PageOf(f, source) == Some((p, range))
  {
  }

  lemma PageIsRead(p: Page, range: (nat, nat), source: Source)
    requires ValidPage(p) && p.provenance.pageNumber > 0 && range.0 <= range.1
    requires ValidBackend(p.provenance.inputBackend) && ValidBackend(p.provenance.extractionBackend)
    requires p.provenance.sourceId == source.sourceId && p.provenance.sha256 == source.sha256 && IsSha256(source.sha256)
    requires Encodable(Integer(p.provenance.pageNumber)) && Encodable(Integer(|p.text|))
    requires Encodable(Integer(|Utf8(p.text)|)) && Encodable(Integer(range.0)) && Encodable(Integer(range.1))
    ensures ReadPage(Normal(PageJson(p, range)), source) == Some((p, range))
  {
    LongKeysAreDistinct();
    ProvenanceIsRead(p.provenance, source);
    RegionsAreRead(p.regions);
    PageOfParts(ProvenanceJson(p.provenance), RegionsJson(p.regions), p, range, source);
    FieldsAreRead(PAGE, PageValues(p, range));
  }

  lemma EightNormals(a: Json, b: Json, c: Json, d: Json, e: Json, f: Json, g: Json, h: Json)
    ensures
      var n := Normals([a, b, c, d, e, f, g, h]);
      && |n| == 8 && n[0] == Normal(a) && n[1] == Normal(b) && n[2] == Normal(c) && n[3] == Normal(d)
      && n[4] == Normal(e) && n[5] == Normal(f) && n[6] == Normal(g) && n[7] == Normal(h)
  {
    assert [a, b, c, d, e, f, g, h] == [a, b, c, d] + [e, f, g, h];
    NormalsJoin([a, b, c, d], [e, f, g, h]);
    FourNormals(a, b, c, d);
    FourNormals(e, f, g, h);
  }

  lemma NormalsJoin(xs: seq<Json>, ys: seq<Json>)
    ensures Normals(xs + ys) == Normals(xs) + Normals(ys)
  {
  }

  lemma SevenNormals(a: Json, b: Json, c: Json, d: Json, e: Json, f: Json, g: Json)
    ensures
      var n := Normals([a, b, c, d, e, f, g]);
      && |n| == 7 && n[0] == Normal(a) && n[1] == Normal(b) && n[2] == Normal(c) && n[3] == Normal(d)
      && n[4] == Normal(e) && n[5] == Normal(f) && n[6] == Normal(g)
  {
    assert [a, b, c, d, e, f, g] == [a, b, c, d] + [e, f, g];
    NormalsJoin([a, b, c, d], [e, f, g]);
    FourNormals(a, b, c, d);
    ThreeNormals(e, f, g);
  }

  lemma ThreeNormals(a: Json, b: Json, c: Json)
    ensures
      var n := Normals([a, b, c]);
      |n| == 3 && n[0] == Normal(a) && n[1] == Normal(b) && n[2] == Normal(c)
  {
  }

  lemma FiveNormals(a: Json, b: Json, c: Json, d: Json, e: Json)
    ensures
      var n := Normals([a, b, c, d, e]);
      && |n| == 5 && n[0] == Normal(a) && n[1] == Normal(b) && n[2] == Normal(c) && n[3] == Normal(d)
      && n[4] == Normal(e)
  {
  }

  lemma FourNormals(a: Json, b: Json, c: Json, d: Json)
    ensures
      var n := Normals([a, b, c, d]);
      |n| == 4 && n[0] == Normal(a) && n[1] == Normal(b) && n[2] == Normal(c) && n[3] == Normal(d)
  {
  }

  lemma MethodIsRead(m: Method)
    ensures ReadMethod(Normal(Text(MethodText(m)))) == Some(m)
  {
    assert |"embedded_text"| != |"ocr"|;
  }

  lemma SourceIsRead(s: Source)
    requires s.sourceId != "" && IsHashText(s.sha256) && IsMediaType(s.mediaType) && Encodable(Integer(s.byteSize))
    ensures ReadSource(Normal(SourceJson(s))) == Some(s)
  {
    KeysAreDistinct();
    NatIsRead(s.byteSize);
    var a, b, c, d := Text(s.sourceId), Text(s.sha256), Text(s.mediaType), Integer(s.byteSize);
    FieldsAreRead(SOURCE, [a, b, c, d]);
    FourNormals(a, b, c, d);
    SourceOfParts(Normals([a, b, c, d]), s);
  }

  lemma SourceOfParts(f: seq<Norm>, s: Source)
    requires |f| == 4 && f[0] == NormText(s.sourceId) && f[1] == NormText(s.sha256) && f[2] == NormText(s.mediaType)
    requires ReadNat(f[3]) == Some(s.byteSize) && s.sourceId != "" && IsHashText(s.sha256) && IsMediaType(s.mediaType)
    ensures SourceOf(f) == Some(s)
  {
  }

  /** What encoding a page needs of its numbers. */
  lemma PageNumbers(p: Page, range: (nat, nat))
    requires ValidPage(p) && Encodable(PageJson(p, range))
    ensures Encodable(Integer(p.provenance.pageNumber)) && Encodable(Integer(|p.text|))
    ensures Encodable(Integer(|Utf8(p.text)|)) && Encodable(Integer(range.0)) && Encodable(Integer(range.1))
  {
    LongKeysAreDistinct();
    var values := PageValues(p, range);
    assert PageJson(p, range) == Fields(PAGE, values);
    FieldsAreValid(PAGE, values);
    assert Encodable(values[0]) && Encodable(values[3]) && Encodable(values[4]) && Encodable(values[6]) && Encodable(values[7]);
    ProvenanceNumbers(p.provenance);
  }

  lemma ProvenanceNumbers(p: Provenance)
    requires Encodable(ProvenanceJson(p))
    ensures Encodable(Integer(p.pageNumber))
  {
    LongKeysAreDistinct();
    var values := [
      Text(p.sourceId), Text(p.sha256), Integer(p.pageNumber), BackendJson(p.inputBackend),
      BackendJson(p.extractionBackend)];
    assert ProvenanceJson(p) == Fields(PROVENANCE, values);
    FieldsAreValid(PROVENANCE, values);
    assert Encodable(values[2]);
  }

  lemma PageIsEncodable(pages: seq<Page>, ranges: seq<(nat, nat)>, i: nat)
    requires |ranges| == |pages| && i < |pages| && forall k :: 0 <= k < |pages| ==> ValidPage(pages[k])
    requires Encodable(PagesJson(pages, ranges))
    ensures Encodable(PageJson(pages[i], ranges[i]))
  {
    var items := PagesJson(pages, ranges).items;
    assert Encodable(items[i]);
  }

  lemma PagesAreRead(d: Document)
    requires ValidDocument(d) && (d.pages != [] ==> IsSha256(d.source.sha256))
    requires Encodable(PagesJson(d.pages, RangesOf(d.pages)))
    ensures
      var read := ReadPages(Normal(PagesJson(d.pages, RangesOf(d.pages))), d.source);
      read.Some? && PagesOf(read.value) == d.pages && RangesIn(read.value) == RangesOf(d.pages)
  {
    var ranges := RangesOf(d.pages);
    var items := Normal(PagesJson(d.pages, ranges)).items;
    forall i | 0 <= i < |items| ensures PageReader(d.source)(items[i]) == Some((d.pages[i], ranges[i])) {
      RangeIsPage(d.pages, i);
      PageIsEncodable(d.pages, ranges, i);
      PageNumbers(d.pages[i], ranges[i]);
      PageIsRead(d.pages[i], ranges[i], d.source);
    }
    var read := ReadAll(items, PageReader(d.source)).value;
    assert PagesOf(read) == d.pages && RangesIn(read) == ranges;
  }

  /** A document with a proper identity. */
  predicate Presentable(d: Document) {
    && ValidDocument(d) && d.source.sourceId != "" && IsSha256(d.source.sha256) && IsMediaType(d.source.mediaType)
    && IsSha256(d.fingerprint)
  }

  /** The hashes that a document must have to be read back: those that the
      decoder takes for such, and with pages the pages' own, which are proper. */
  predicate ReadableHashes(d: Document) {
    IsHashText(d.fingerprint) && IsHashText(d.source.sha256) && (d.pages != [] ==> IsSha256(d.source.sha256))
  }

  /** A document that the decoder can return. */
  predicate Decodable(d: Document) {
    ValidDocument(d) && d.source.sourceId != "" && IsMediaType(d.source.mediaType) && ReadableHashes(d)
  }

  /** Given that it can be returned, what a proper document still needs. */
  predicate ProperHashes(d: Document) {
    IsSha256(d.fingerprint) && (d.pages == [] ==> IsSha256(d.source.sha256))
  }

  lemma PresentableIff(d: Document)
    ensures Presentable(d) <==> Decodable(d) && ProperHashes(d)
  {
    if IsSha256(d.fingerprint) { ProperIsHashText(d.fingerprint); }
    if IsSha256(d.source.sha256) { ProperIsHashText(d.source.sha256); }
  }

  function ResultValues(d: Document): seq<Json>
    requires ValidDocument(d)
  {
    var text := TextOf(d.pages);
    [SourceJson(d.source), Text(d.fingerprint), Text(text), Integer(|d.pages|), Integer(|text|),
     Integer(|Utf8(text)|), PagesJson(d.pages, RangesOf(d.pages))]
  }

  lemma ResultNumbers(d: Document)
    requires ValidDocument(d) && Encodable(DocumentJson(d))
    ensures Encodable(Integer(d.source.byteSize)) && Encodable(Integer(|d.pages|))
    ensures Encodable(Integer(|TextOf(d.pages)|)) && Encodable(Integer(|Utf8(TextOf(d.pages))|))
    ensures Encodable(PagesJson(d.pages, RangesOf(d.pages)))
  {
    LongKeysAreDistinct();
    KeysAreDistinct();
    var values := ResultValues(d);
    assert DocumentJson(d) == Fields(RESULT, values);
    FieldsAreValid(RESULT, values);
    assert Encodable(values[0]) && Encodable(values[3]) && Encodable(values[4]) && Encodable(values[5]) && Encodable(values[6]);
    var s := [Text(d.source.sourceId), Text(d.source.sha256), Text(d.source.mediaType), Integer(d.source.byteSize)];
    FieldsAreValid(SOURCE, s);
    assert Encodable(s[3]);
  }

  /** The seven values of a result, each of which is read. */
  lemma ResultOfParts(source: Json, pages: Json, d: Document, read: seq<(Page, (nat, nat))>)
    requires ReadSource(Normal(source)) == Some(d.source) && IsHashText(d.fingerprint) && Numbered(d.pages)
    requires ReadPages(Normal(pages), d.source) == Some(read)
    requires PagesOf(read) == d.pages && RangesIn(read) == RangesOf(d.pages)
    requires Encodable(Integer(|d.pages|)) && Encodable(Integer(|TextOf(d.pages)|))
    requires Encodable(Integer(|Utf8(TextOf(d.pages))|))
    ensures
      var text := TextOf(d.pages);
      ResultOf(Normals([source, Text(d.fingerprint), Text(text), Integer(|d.pages|), Integer(|text|),
                        Integer(|Utf8(text)|), pages])) == Some(Decoded(d, text, RangesOf(d.pages)))
  {
    var text := TextOf(d.pages);
    var k, n, bytes := Integer(|d.pages|), Integer(|text|), Integer(|Utf8(text)|);
    var f := Normals([source, Text(d.fingerprint), Text(text), k, n, bytes, pages]);
    SevenAreRead(source, pages, d.fingerprint, text, |d.pages|, |text|, |Utf8(text)|, f);
    ResultOfSeven(f, d, read);
  }

  lemma SevenAreRead(
    source: Json, pages: Json, fingerprint: string, text: string, count: nat, characters: nat, bytes: nat, f: seq<Norm>)
    requires Encodable(Integer(count)) && Encodable(Integer(characters)) && Encodable(Integer(bytes))
    requires f == Normals([source, Text(fingerprint), Text(text), Integer(count), Integer(characters), Integer(bytes), pages])
    ensures |f| == 7 && f[0] == Normal(source) && f[1] == NormText(fingerprint) && f[2] == NormText(text)
    ensures ReadNat(f[3]) == Some(count) && ReadNat(f[4]) == Some(characters) && ReadNat(f[5]) == Some(bytes)
    ensures f[6] == Normal(pages)
  {
    SevenNormals(source, Text(fingerprint), Text(text), Integer(count), Integer(characters), Integer(bytes), pages);
    NatIsRead(count);
    NatIsRead(characters);
    NatIsRead(bytes);
  }

  lemma ResultOfSeven(f: seq<Norm>, d: Document, read: seq<(Page, (nat, nat))>)
    requires |f| == 7 && ReadSource(f[0]) == Some(d.source) && f[1] == NormText(d.fingerprint) && IsHashText(d.fingerprint)
    requires f[2] == NormText(TextOf(d.pages)) && ReadNat(f[3]) == Some(|d.pages|) && Numbered(d.pages)
    requires ReadNat(f[4]) == Some(|TextOf(d.pages)|) && ReadNat(f[5]) == Some(|Utf8(TextOf(d.pages))|)
    requires ReadPages(f[6], d.source) == Some(read) && PagesOf(read) == d.pages && RangesIn(read) == RangesOf(d.pages)
    ensures ResultOf(f) == Some(Decoded(d, TextOf(d.pages), RangesOf(d.pages)))
  {
  }

  /** Reading a written document gives back its source, its pages, its text and
      the ranges of its pages. */
  lemma {:induction false} ResultIsRead(d: Document)
    requires Decodable(d) && Encodable(DocumentJson(d))
    ensures ReadResult(Normal(DocumentJson(d))) == Some(Decoded(d, TextOf(d.pages), RangesOf(d.pages)))
  {
    LongKeysAreDistinct();
    ResultNumbers(d);
    SourceIsRead(d.source);
    PagesAreRead(d);
    var pages := PagesJson(d.pages, RangesOf(d.pages));
    ResultOfParts(SourceJson(d.source), pages, d, ReadPages(Normal(pages), d.source).value);
    FieldsAreRead(RESULT, ResultValues(d));
  }

  // ---------------------------------------------------------------- through the bytes

  /** A number that is read back as an integer must be in the safe range. */
  predicate SafeNumber(n: Number) {
    IsInteger(n) ==> Magnitude(n) <= MAX_SAFE_INTEGER
  }

  predicate SafeNorm(n: Norm) {
    match n
    case NormNumber(number) => SafeNumber(number)
    case NormArray(items) => forall i :: 0 <= i < |items| ==> SafeNorm(items[i])
    case NormObject(members) => forall i :: 0 <= i < |members| ==> SafeNorm(members[i].value)
    case _ => true
  }

  /** Parses canonical JSON: the text must be the encoding of its value. */
  function DecodeCanonical(text: string): Option<Norm> {
    match ParseValue(text)
    case None => None
    case Some((n, rest)) => if rest == "" && IsNormal(n) && Print(n) == text && SafeNorm(n) then Some(n) else None
  }

  function DecodeResponse(text: string): Option<(string, Decoded)> {
    match DecodeCanonical(text)
    case None => None
    case Some(n) =>
      match RequireFields(n, RESPONSE)
      case None => None
      case Some(f) => ResponseOf(f)
  }

  function ResponseOf(f: seq<Norm>): Option<(string, Decoded)>
    requires |f| == 4
  {
    if ReadNat(f[0]) != Some(1) || ReadNonEmpty(f[1]).None? || f[2] != NormBool(true) || ReadResult(f[3]).None? then None
    else Some((f[1].s, ReadResult(f[3]).value))
  }

  predicate SafeJson(v: Json) {
    match v
    case Integer(n) => -MAX_SAFE_INTEGER <= n <= MAX_SAFE_INTEGER
    case Real(_) => SafeNumber(AsNumber(v))
    case Array(items) => forall i :: 0 <= i < |items| ==> SafeJson(items[i])
    case Object(members) => forall i :: 0 <= i < |members| ==> SafeJson(members[i].value)
    case _ => true
  }

  lemma {:induction false} SafeNormal(v: Json)
    requires Valid(v) && Encodable(v)
    ensures SafeNorm(Normal(v)) <==> SafeJson(v)
    decreases v
  {
    match v {
      case Integer(n) => IntegerIsSafe(n);
      case Array(items) =>
        forall i | 0 <= i < |items| ensures SafeNorm(Normal(items[i])) <==> SafeJson(items[i]) { SafeNormal(items[i]); }
        assert forall i :: 0 <= i < |items| ==> Normal(v).items[i] == Normal(items[i]);
      case Object(members) =>
        forall i | 0 <= i < |members| ensures SafeNorm(Normal(members[i].value)) <==> SafeJson(members[i].value) {
          SafeNormal(members[i].value);
        }
        SafeMembers(members, NormalMembers(members));
        assert Normal(v) == NormObject(SortEntries(NormalMembers(members)));
      case _ =>
    }
  }

  lemma IntegerIsSafe(n: int)
    requires Encodable(Integer(n))
    ensures SafeNorm(Normal(Integer(n)))
  {
    IntegersAreNumbers(n);
    assert Pow10(0) == 1;
  }

  lemma SafeMembers(members: seq<Entry<Json>>, normals: seq<Entry<Norm>>)
    requires |normals| == |members|
    requires forall i :: 0 <= i < |members| ==> (SafeNorm(normals[i].value) <==> SafeJson(members[i].value))
    ensures SafeNorm(NormObject(SortEntries(normals))) <==> SafeJson(Object(members))
  {
    SortElements(normals, ByKey());
    SafeEntries(SortEntries(normals));
    SafeEntries(normals);
    assert SafeNorm(NormObject(normals)) <==> forall i :: 0 <= i < |normals| ==> SafeNorm(normals[i].value);
  }

  lemma SafeEntries(entries: seq<Entry<Norm>>)
    ensures SafeNorm(NormObject(entries)) <==> forall e :: e in entries ==> SafeNorm(e.value)
  {
  }

  // Which documents have only safe numbers.

  predicate SafePoint(p: Point) {
    SafeNumber(p.x) && SafeNumber(p.y)
  }

  predicate SafeRegion(r: Region) {
    SafeNumber(r.confidence) && forall i :: 0 <= i < |r.polygon| ==> SafePoint(r.polygon[i])
  }

  predicate SafePage(p: Page) {
    forall i :: 0 <= i < |p.regions| ==> SafeRegion(p.regions[i])
  }

  /** No coordinate is an integer beyond 2^53 - 1 that is still written without
      an exponent. */
  predicate SafeDocument(d: Document) {
    forall i :: 0 <= i < |d.pages| ==> SafePage(d.pages[i])
  }

  lemma SafeFields(keys: seq<string>, values: seq<Json>)
    requires |keys| == |values|
    ensures SafeJson(Fields(keys, values)) <==> forall i :: 0 <= i < |values| ==> SafeJson(values[i])
  {
    var members := Fields(keys, values).members;
    assert forall i :: 0 <= i < |values| ==> members[i].value == values[i];
  }

  lemma SafeReal(n: Number)
    requires NormalNumber(n)
    ensures SafeJson(Real(FloatOf(n))) <==> SafeNumber(n)
  {
    FloatIsNumber(n);
  }

  lemma PointSafety(p: Point)
    requires ValidPoint(p)
    ensures SafeJson(PointJson(p)) <==> SafePoint(p)
  {
    var values := [Real(FloatOf(p.x)), Real(FloatOf(p.y))];
    assert PointJson(p) == Fields(POINT, values);
    SafeFields(POINT, values);
    SafeReal(p.x);
    SafeReal(p.y);
    assert SafePoint(p) <==> SafeJson(values[0]) && SafeJson(values[1]);
  }

  lemma RegionSafety(r: Region)
    requires ValidRegion(r)
    ensures SafeJson(RegionJson(r)) <==> SafeRegion(r)
  {
    var points := seq(|r.polygon|, i requires 0 <= i < |r.polygon| => PointJson(r.polygon[i]));
    SafeReal(r.confidence);
    PointsSafety(r.polygon, points);
    SafeThree(Array(points), Text(r.text), Real(FloatOf(r.confidence)));
  }

  lemma PointsSafety(polygon: seq<Point>, points: seq<Json>)
    requires |points| == |polygon| && forall i :: 0 <= i < |polygon| ==> ValidPoint(polygon[i])
    requires forall i :: 0 <= i < |polygon| ==> points[i] == PointJson(polygon[i])
    ensures SafeJson(Array(points)) <==> forall i :: 0 <= i < |polygon| ==> SafePoint(polygon[i])
  {
    forall i | 0 <= i < |points| ensures SafeJson(points[i]) <==> SafePoint(polygon[i]) { PointSafety(polygon[i]); }
  }

  lemma SafeThree(a: Json, b: Json, c: Json)
    ensures SafeJson(Fields(REGION, [a, b, c])) <==> SafeJson(a) && SafeJson(b) && SafeJson(c)
  {
    var values := [a, b, c];
    SafeFields(REGION, values);
    assert (forall i :: 0 <= i < 3 ==> SafeJson(values[i])) ==> SafeJson(values[0]) && SafeJson(values[1]) && SafeJson(values[2]);
  }

  lemma RegionsSafety(regions: seq<Region>)
    requires forall i :: 0 <= i < |regions| ==> ValidRegion(regions[i])
    ensures SafeJson(RegionsJson(regions)) <==> forall i :: 0 <= i < |regions| ==> SafeRegion(regions[i])
  {
    var items := RegionsJson(regions).items;
    forall i | 0 <= i < |items| ensures SafeJson(items[i]) <==> SafeRegion(regions[i]) { RegionSafety(regions[i]); }
  }

  lemma BackendSafety(b: Backend)
    ensures SafeJson(BackendJson(b))
  {
    match b.model {
      case None => SafeFields(BACKEND, [Text(b.name), Text(b.version)]);
      case Some(model) => SafeFields(MODEL, [Text(b.name), Text(b.version), Text(model)]);
    }
  }

  lemma ProvenanceSafety(p: Provenance)
    requires Encodable(Integer(p.pageNumber))
    ensures SafeJson(ProvenanceJson(p))
  {
    BackendSafety(p.inputBackend);
    BackendSafety(p.extractionBackend);
    SafeFields(PROVENANCE, [
      Text(p.sourceId), Text(p.sha256), Integer(p.pageNumber), BackendJson(p.inputBackend),
      BackendJson(p.extractionBackend)]);
  }

  lemma PageSafety(p: Page, range: (nat, nat))
    requires ValidPage(p) && Encodable(PageJson(p, range))
    ensures SafeJson(PageJson(p, range)) <==> SafePage(p)
  {
    PageNumbers(p, range);
    ProvenanceSafety(p.provenance);
    RegionsSafety(p.regions);
    SafeEight(ProvenanceJson(p.provenance), Text(MethodText(p.extraction)), Text(p.text), Integer(|p.text|),
              Integer(|Utf8(p.text)|), RegionsJson(p.regions), Integer(range.0), Integer(range.1));
  }

  lemma SafeEight(a: Json, b: Json, c: Json, d: Json, e: Json, f: Json, g: Json, h: Json)
    ensures SafeJson(Fields(PAGE, [a, b, c, d, e, f, g, h])) <==>
      SafeJson(a) && SafeJson(b) && SafeJson(c) && SafeJson(d) && SafeJson(e) && SafeJson(f) && SafeJson(g) && SafeJson(h)
  {
    SafeFields(PAGE, [a, b, c, d, e, f, g, h]);
    EveryOfEight(SafeJson, a, b, c, d, e, f, g, h);
  }

  lemma EveryOfEight(ok: Json -> bool, a: Json, b: Json, c: Json, d: Json, e: Json, f: Json, g: Json, h: Json)
    ensures
      var values := [a, b, c, d, e, f, g, h];
      (forall i :: 0 <= i < |values| ==> ok(values[i])) <==>
        ok(a) && ok(b) && ok(c) && ok(d) && ok(e) && ok(f) && ok(g) && ok(h)
  {
    var values := [a, b, c, d, e, f, g, h];
    EveryOfSeven(ok, a, b, c, d, e, f, g);
    assert values == [a, b, c, d, e, f, g] + [h];
    assert forall i :: 0 <= i < 7 ==> values[i] == [a, b, c, d, e, f, g][i];
    assert values[7] == h;
  }

  lemma EveryOfSeven(ok: Json -> bool, a: Json, b: Json, c: Json, d: Json, e: Json, f: Json, g: Json)
    ensures
      var values := [a, b, c, d, e, f, g];
      (forall i :: 0 <= i < |values| ==> ok(values[i])) <==> ok(a) && ok(b) && ok(c) && ok(d) && ok(e) && ok(f) && ok(g)
  {
    var values := [a, b, c, d, e, f, g];
    assert (forall i :: 0 <= i < |values| ==> ok(values[i])) ==>
      ok(values[0]) && ok(values[1]) && ok(values[2]) && ok(values[3]) && ok(values[4]) && ok(values[5]) && ok(values[6]);
  }

  lemma SafeSeven(a: Json, b: Json, c: Json, d: Json, e: Json, f: Json, g: Json)
    ensures SafeJson(Fields(RESULT, [a, b, c, d, e, f, g])) <==>
      SafeJson(a) && SafeJson(b) && SafeJson(c) && SafeJson(d) && SafeJson(e) && SafeJson(f) && SafeJson(g)
  {
    SafeFields(RESULT, [a, b, c, d, e, f, g]);
    EveryOfSeven(SafeJson, a, b, c, d, e, f, g);
  }

  lemma SourceSafety(s: Source)
    requires Encodable(Integer(s.byteSize))
    ensures SafeJson(SourceJson(s))
  {
    SafeFields(SOURCE, [Text(s.sourceId), Text(s.sha256), Text(s.mediaType), Integer(s.byteSize)]);
  }

  lemma PagesSafety(d: Document)
    requires ValidDocument(d) && Encodable(PagesJson(d.pages, RangesOf(d.pages)))
    ensures SafeJson(PagesJson(d.pages, RangesOf(d.pages))) <==> SafeDocument(d)
  {
    var ranges := RangesOf(d.pages);
    var items := PagesJson(d.pages, ranges).items;
    forall i | 0 <= i < |items| ensures SafeJson(items[i]) <==> SafePage(d.pages[i]) {
      PageIsEncodable(d.pages, ranges, i);
      PageSafety(d.pages[i], ranges[i]);
    }
  }

  lemma DocumentSafety(d: Document)
    requires ValidDocument(d) && Encodable(DocumentJson(d))
    ensures SafeJson(DocumentJson(d)) <==> SafeDocument(d)
  {
    ResultNumbers(d);
    SourceSafety(d.source);
    PagesSafety(d);
    SafeSeven(SourceJson(d.source), Text(d.fingerprint), Text(TextOf(d.pages)), Integer(|d.pages|),
              Integer(|TextOf(d.pages)|), Integer(|Utf8(TextOf(d.pages))|), PagesJson(d.pages, RangesOf(d.pages)));
  }

  function ResponseValues(requestId: string, d: Document): seq<Json>
    requires ValidDocument(d)
  {
    [Integer(1), Text(requestId), Bool(true), DocumentJson(d)]
  }

  lemma ResponseIsRead(requestId: string, d: Document)
    requires Decodable(d) && requestId != "" && Encodable(DocumentJson(d))
    ensures
      var f := RequireFields(Normal(ResponseJson(requestId, d)), RESPONSE);
      f.Some? && ResponseOf(f.value) == Some((requestId, Decoded(d, TextOf(d.pages), RangesOf(d.pages))))
  {
    KeysAreDistinct();
    ResultIsRead(d);
    FourNormals(Integer(1), Text(requestId), Bool(true), DocumentJson(d));
    NatIsRead(1);
    FieldsAreRead(RESPONSE, ResponseValues(requestId, d));
  }

  lemma ResponseIsSafe(requestId: string, d: Document)
    requires ValidDocument(d) && Encodable(DocumentJson(d))
    ensures SafeJson(ResponseJson(requestId, d)) <==> SafeDocument(d)
  {
    DocumentSafety(d);
    SafeFour(Integer(1), Text(requestId), Bool(true), DocumentJson(d));
  }

  lemma SafeFour(a: Json, b: Json, c: Json, d: Json)
    ensures SafeJson(Fields(RESPONSE, [a, b, c, d])) <==> SafeJson(a) && SafeJson(b) && SafeJson(c) && SafeJson(d)
  {
    var values := [a, b, c, d];
    SafeFields(RESPONSE, values);
    assert (forall i :: 0 <= i < 4 ==> SafeJson(values[i])) ==>
      SafeJson(values[0]) && SafeJson(values[1]) && SafeJson(values[2]) && SafeJson(values[3]);
  }

  lemma ResponseEncodable(requestId: string, d: Document)
    requires ValidDocument(d) && Encodable(ResponseJson(requestId, d))
    ensures Encodable(DocumentJson(d))
  {
    KeysAreDistinct();
    var values := ResponseValues(requestId, d);
    FieldsAreValid(RESPONSE, values);
    assert Encodable(values[3]);
  }

  /** Decoding what was encoded gives the value, in normal form, exactly when
      every number that is written out in digits is in the safe range. */
  lemma {:induction false} CanonicalRoundTrip(v: Json)
    requires Valid(v) && Encodable(v)
    ensures Encode(v).Ok?
    ensures DecodeCanonical(Encode(v).value) == if SafeJson(v) then Some(Normal(v)) else None
  {
    EncodePrintsNormal(v);
    PrintParses(Normal(v));
    assert Print(Normal(v)) + "" == Print(Normal(v));
    SafeNormal(v);
  }

  lemma ResponseAfterParse(text: string, n: Norm, requestId: string, decoded: Decoded)
    requires DecodeCanonical(text) == Some(n)
    requires RequireFields(n, RESPONSE).Some? && ResponseOf(RequireFields(n, RESPONSE).value) == Some((requestId, decoded))
    ensures DecodeResponse(text) == Some((requestId, decoded))
  {
  }

  /** The boundary's round trip. A response that can be encoded is decoded to
      the same request, document, text and page ranges, exactly when no number
      in it is an integer beyond 2^53 - 1 that is written out in digits; with
      such a number it is refused. */
  lemma {:induction false} ResponseRoundTrip(requestId: string, d: Document)
    requires Decodable(d) && requestId != ""
    ensures Valid(ResponseJson(requestId, d))
    ensures Encode(ResponseJson(requestId, d)).Ok? ==>
      DecodeResponse(Encode(ResponseJson(requestId, d)).value) ==
        if SafeDocument(d) then Some((requestId, Decoded(d, TextOf(d.pages), RangesOf(d.pages)))) else None
  {
    var v := ResponseJson(requestId, d);
    ResponseIsValid(requestId, d);
    if Encode(v).Ok? {
      EncodePrintsNormal(v);
      ResponseEncodable(requestId, d);
      CanonicalRoundTrip(v);
      ResponseIsSafe(requestId, d);
      if SafeDocument(d) {
        ResponseIsRead(requestId, d);
        ResponseAfterParse(Encode(v).value, Normal(v), requestId, Decoded(d, TextOf(d.pages), RangesOf(d.pages)));
      }
    }
  }

  // ---------------------------------------------------------------- what is written is valid

  lemma PointIsValid(p: Point)
    requires ValidPoint(p)
    ensures Valid(PointJson(p)) && Encodable(PointJson(p))
  {
    KeysAreDistinct();
    RealIsNumber(p.x);
    RealIsNumber(p.y);
    FieldsAreValid(POINT, [Real(FloatOf(p.x)), Real(FloatOf(p.y))]);
  }

  lemma RegionIsValid(r: Region)
    requires ValidRegion(r)
    ensures Valid(RegionJson(r)) && Encodable(RegionJson(r))
  {
    KeysAreDistinct();
    RealIsNumber(r.confidence);
    var points := seq(|r.polygon|, i requires 0 <= i < |r.polygon| => PointJson(r.polygon[i]));
    forall i | 0 <= i < |points| ensures Valid(points[i]) && Encodable(points[i]) { PointIsValid(r.polygon[i]); }
    FieldsAreValid(REGION, [Array(points), Text(r.text), Real(FloatOf(r.confidence))]);
  }

  lemma BackendIsValid(b: Backend)
    ensures Valid(BackendJson(b)) && Encodable(BackendJson(b))
  {
    KeysAreDistinct();
    match b.model {
      case None => FieldsAreValid(BACKEND, [Text(b.name), Text(b.version)]);
      case Some(model) => FieldsAreValid(MODEL, [Text(b.name), Text(b.version), Text(model)]);
    }
  }

  lemma ProvenanceIsValid(p: Provenance)
    ensures Valid(ProvenanceJson(p))
  {
    LongKeysAreDistinct();
    BackendIsValid(p.inputBackend);
    BackendIsValid(p.extractionBackend);
    FieldsAreValid(PROVENANCE, [
      Text(p.sourceId), Text(p.sha256), Integer(p.pageNumber), BackendJson(p.inputBackend),
      BackendJson(p.extractionBackend)]);
  }

  lemma RegionsAreValid(regions: seq<Region>)
    requires forall i :: 0 <= i < |regions| ==> ValidRegion(regions[i])
    ensures Valid(RegionsJson(regions)) && Encodable(RegionsJson(regions))
  {
    forall i | 0 <= i < |regions| ensures Valid(RegionJson(regions[i])) && Encodable(RegionJson(regions[i])) {
      RegionIsValid(regions[i]);
    }
  }

  lemma ValidEight(a: Json, b: Json, c: Json, d: Json, e: Json, f: Json, g: Json, h: Json)
    requires Valid(a) && Valid(b) && Valid(c) && Valid(d) && Valid(e) && Valid(f) && Valid(g) && Valid(h)
    ensures Valid(Fields(PAGE, [a, b, c, d, e, f, g, h]))
  {
    LongKeysAreDistinct();
    FieldsAreValid(PAGE, [a, b, c, d, e, f, g, h]);
    EveryOfEight(Valid, a, b, c, d, e, f, g, h);
  }

  lemma ValidSeven(a: Json, b: Json, c: Json, d: Json, e: Json, f: Json, g: Json)
    requires Valid(a) && Valid(b) && Valid(c) && Valid(d) && Valid(e) && Valid(f) && Valid(g)
    ensures Valid(Fields(RESULT, [a, b, c, d, e, f, g]))
  {
    LongKeysAreDistinct();
    FieldsAreValid(RESULT, [a, b, c, d, e, f, g]);
    EveryOfSeven(Valid, a, b, c, d, e, f, g);
  }

  lemma PageIsValid(p: Page, range: (nat, nat))
    requires ValidPage(p)
    ensures Valid(PageJson(p, range))
  {
    ProvenanceIsValid(p.provenance);
    RegionsAreValid(p.regions);
    ValidEight(ProvenanceJson(p.provenance), Text(MethodText(p.extraction)), Text(p.text), Integer(|p.text|),
               Integer(|Utf8(p.text)|), RegionsJson(p.regions), Integer(range.0), Integer(range.1));
  }

  lemma PagesAreValid(pages: seq<Page>, ranges: seq<(nat, nat)>)
    requires |ranges| == |pages| && forall i :: 0 <= i < |pages| ==> ValidPage(pages[i])
    ensures Valid(PagesJson(pages, ranges))
  {
    forall i | 0 <= i < |pages| ensures Valid(PageJson(pages[i], ranges[i])) { PageIsValid(pages[i], ranges[i]); }
  }

  lemma SourceIsValid(s: Source)
    ensures Valid(SourceJson(s))
  {
    KeysAreDistinct();
    FieldsAreValid(SOURCE, [Text(s.sourceId), Text(s.sha256), Text(s.mediaType), Integer(s.byteSize)]);
  }

  lemma DocumentIsValid(d: Document)
    requires ValidDocument(d)
    ensures Valid(DocumentJson(d))
  {
    var ranges, text := RangesOf(d.pages), TextOf(d.pages);
    PagesAreValid(d.pages, ranges);
    SourceIsValid(d.source);
    ValidSeven(SourceJson(d.source), Text(d.fingerprint), Text(text), Integer(|d.pages|), Integer(|text|),
               Integer(|Utf8(text)|), PagesJson(d.pages, ranges));
  }

  lemma ResponseIsValid(requestId: string, d: Document)
    requires ValidDocument(d)
    ensures Valid(ResponseJson(requestId, d))
  {
    KeysAreDistinct();
    DocumentIsValid(d);
    FieldsAreValid(RESPONSE, ResponseValues(requestId, d));
  }

  // ---------------------------------------------------------------- which documents can be encoded

  predicate SafeCount(n: nat) {
    n <= MAX_SAFE_INTEGER
  }

  predicate PageCountsSafe(p: Page, range: (nat, nat)) {
    && SafeCount(p.provenance.pageNumber) && SafeCount(|p.text|) && SafeCount(|Utf8(p.text)|)
    && SafeCount(range.0) && SafeCount(range.1)
  }

  /** The counts that a document writes out are safe integers. */
  predicate CountsSafe(d: Document) {
    && SafeCount(d.source.byteSize) && SafeCount(|d.pages|) && SafeCount(|TextOf(d.pages)|)
    && SafeCount(|Utf8(TextOf(d.pages))|)
    && forall i :: 0 <= i < |d.pages| ==> PageCountsSafe(d.pages[i], RangesOf(d.pages)[i])
  }

  lemma ProvenanceEncodes(p: Provenance)
    requires SafeCount(p.pageNumber)
    ensures Encodable(ProvenanceJson(p))
  {
    LongKeysAreDistinct();
    BackendIsValid(p.inputBackend);
    BackendIsValid(p.extractionBackend);
    FieldsAreValid(PROVENANCE, [
      Text(p.sourceId), Text(p.sha256), Integer(p.pageNumber), BackendJson(p.inputBackend),
      BackendJson(p.extractionBackend)]);
  }

  lemma SourceEncodes(s: Source)
    requires SafeCount(s.byteSize)
    ensures Encodable(SourceJson(s))
  {
    KeysAreDistinct();
    FieldsAreValid(SOURCE, [Text(s.sourceId), Text(s.sha256), Text(s.mediaType), Integer(s.byteSize)]);
  }

  lemma PageEncodes(p: Page, range: (nat, nat))
    requires ValidPage(p) && PageCountsSafe(p, range)
    ensures Encodable(PageJson(p, range))
  {
    ProvenanceEncodes(p.provenance);
    RegionsAreValid(p.regions);
    EncodableEight(ProvenanceJson(p.provenance), Text(MethodText(p.extraction)), Text(p.text), Integer(|p.text|),
                   Integer(|Utf8(p.text)|), RegionsJson(p.regions), Integer(range.0), Integer(range.1));
  }

  lemma EncodableEight(a: Json, b: Json, c: Json, d: Json, e: Json, f: Json, g: Json, h: Json)
    requires Encodable(a) && Encodable(b) && Encodable(c) && Encodable(d)
    requires Encodable(e) && Encodable(f) && Encodable(g) && Encodable(h)
    ensures Encodable(Fields(PAGE, [a, b, c, d, e, f, g, h]))
  {
    LongKeysAreDistinct();
    FieldsAreValid(PAGE, [a, b, c, d, e, f, g, h]);
    EveryOfEight(v => Encodable(v), a, b, c, d, e, f, g, h);
  }

  lemma EncodableSeven(a: Json, b: Json, c: Json, d: Json, e: Json, f: Json, g: Json)
    requires Encodable(a) && Encodable(b) && Encodable(c) && Encodable(d) && Encodable(e) && Encodable(f) && Encodable(g)
    ensures Encodable(Fields(RESULT, [a, b, c, d, e, f, g]))
  {
    LongKeysAreDistinct();
    FieldsAreValid(RESULT, [a, b, c, d, e, f, g]);
    EveryOfSeven(v => Encodable(v), a, b, c, d, e, f, g);
  }

  lemma PagesEncode(pages: seq<Page>, ranges: seq<(nat, nat)>)
    requires |ranges| == |pages| && forall i :: 0 <= i < |pages| ==> ValidPage(pages[i]) && PageCountsSafe(pages[i], ranges[i])
    ensures Encodable(PagesJson(pages, ranges))
  {
    forall i | 0 <= i < |pages| ensures Encodable(PageJson(pages[i], ranges[i])) { PageEncodes(pages[i], ranges[i]); }
  }

  lemma DocumentEncodes(d: Document)
    requires ValidDocument(d) && CountsSafe(d)
    ensures Encodable(DocumentJson(d))
  {
    SourceEncodes(d.source);
    PagesEncode(d.pages, RangesOf(d.pages));
    EncodableSeven(SourceJson(d.source), Text(d.fingerprint), Text(TextOf(d.pages)), Integer(|d.pages|),
                   Integer(|TextOf(d.pages)|), Integer(|Utf8(TextOf(d.pages))|), PagesJson(d.pages, RangesOf(d.pages)));
  }

  lemma EncodedCountsAreSafe(d: Document)
    requires ValidDocument(d) && Encodable(DocumentJson(d))
    ensures CountsSafe(d)
  {
    ResultNumbers(d);
    var ranges := RangesOf(d.pages);
    forall i | 0 <= i < |d.pages| ensures PageCountsSafe(d.pages[i], ranges[i]) {
      PageIsEncodable(d.pages, ranges, i);
      PageNumbers(d.pages[i], ranges[i]);
    }
  }

  /** A response can be encoded exactly when the counts it writes out are safe
      integers: its coordinates never prevent it. */
  lemma {:induction false} ResponseEncodesIff(requestId: string, d: Document)
    requires ValidDocument(d)
    ensures Valid(ResponseJson(requestId, d))
    ensures Encode(ResponseJson(requestId, d)).Ok? <==> CountsSafe(d)
  {
    ResponseIsValid(requestId, d);
    EncodePrintsNormal(ResponseJson(requestId, d));
    if CountsSafe(d) { ResponseCanBeEncoded(requestId, d); }
    if Encodable(ResponseJson(requestId, d)) {
      ResponseEncodable(requestId, d);
      EncodedCountsAreSafe(d);
    }
  }

  lemma ResponseCanBeEncoded(requestId: string, d: Document)
    requires ValidDocument(d) && CountsSafe(d)
    ensures Encodable(ResponseJson(requestId, d))
  {
    DocumentEncodes(d);
    EncodableFour(Integer(1), Text(requestId), Bool(true), DocumentJson(d));
  }

  lemma EncodableFour(a: Json, b: Json, c: Json, d: Json)
    requires Encodable(a) && Encodable(b) && Encodable(c) && Encodable(d)
    ensures Encodable(Fields(RESPONSE, [a, b, c, d]))
  {
    KeysAreDistinct();
    FieldsAreValid(RESPONSE, [a, b, c, d]);
  }

  // ---------------------------------------------------------------- a document that does not come back

  const NO_HASH: string := "sha256:" + Zeros(64)

  /** A one-page document with one recognised region in which x is a coordinate. */
  function PageWith(x: Number): Page {
    var at := Point(x, Zero);
    Page(Provenance("scan", NO_HASH, 1, Backend("ocr", "1", None), Backend("ocr", "1", None)), Ocr, "t",
         [Region([at, at, at, at], "t", Zero)])
  }

  function DocumentWith(x: Number): Document {
    Document(Source("scan", NO_HASH, "image/png", 1), NO_HASH, [PageWith(x)])
  }

  /** Whatever integer beyond 2^53 - 1 is a coordinate in it: it is a proper
      document, it is encoded, and the decoder refuses what was written. */
  lemma LargeCoordinateIsRefused(x: Number, requestId: string)
    requires NormalNumber(x) && IsInteger(x) && Magnitude(x) > MAX_SAFE_INTEGER && requestId != ""
    ensures Presentable(DocumentWith(x)) && !SafeDocument(DocumentWith(x))
    ensures Valid(ResponseJson(requestId, DocumentWith(x)))
    ensures Encode(ResponseJson(requestId, DocumentWith(x))).Ok?
    ensures DecodeResponse(Encode(ResponseJson(requestId, DocumentWith(x))).value) == None
  {
    var d := DocumentWith(x);
    SampleIsPresentable(x);
    PresentableIff(d);
    SampleCounts(x);
    SampleIsUnsafe(x);
    ResponseEncodesIff(requestId, d);
    ResponseRoundTrip(requestId, d);
  }

  lemma SampleIsPresentable(x: Number)
    requires NormalNumber(x)
    ensures ValidPage(PageWith(x)) && Presentable(DocumentWith(x))
  {
    assert ValidRegion(PageWith(x).regions[0]);
    assert NO_HASH[..7] == "sha256:";
  }

  lemma SampleCounts(x: Number)
    ensures CountsSafe(DocumentWith(x))
  {
    assert DocumentWith(x).pages == [PageWith(x)];
    assert |Utf8("t")| == 1;
  }

  lemma SampleIsUnsafe(x: Number)
    requires IsInteger(x) && Magnitude(x) > MAX_SAFE_INTEGER
    ensures !SafeDocument(DocumentWith(x))
  {
    assert !SafePoint(PageWith(x).regions[0].polygon[0]);
    assert !SafeRegion(PageWith(x).regions[0]);
    assert !SafePage(DocumentWith(x).pages[0]);
  }

  /** 2^53 is such a coordinate. */
  lemma LargeCoordinateExists()
    ensures
      var x := IntegerNumber(MAX_SAFE_INTEGER + 1);
      NormalNumber(x) && IsInteger(x) && Magnitude(x) == MAX_SAFE_INTEGER + 1
  {
    var n := MAX_SAFE_INTEGER + 1;
    DigitBounds(NatText(n));
    SafeIntegerDigits();
    if |NatText(n)| > 21 { Pow10Grows(17, |NatText(n)| - 1); }
    WholeDigits(NatText(n));
  }

  /** A response comes back whole exactly when its counts are safe integers and
      no coordinate is a larger one. */
  lemma {:induction false} ResponseReturnsIff(requestId: string, d: Document)
    requires Decodable(d) && requestId != ""
    ensures Valid(ResponseJson(requestId, d))
    ensures
      var encoded := Encode(ResponseJson(requestId, d));
      (encoded.Ok? && DecodeResponse(encoded.value) == Some((requestId, Decoded(d, TextOf(d.pages), RangesOf(d.pages)))))
      <==> CountsSafe(d) && SafeDocument(d)
  {
    ResponseEncodesIff(requestId, d);
    ResponseRoundTrip(requestId, d);
  }

  // ---------------------------------------------------------------- what is accepted is a document

  lemma {:induction false} FoundIsNormal(members: seq<Entry<Norm>>, key: string)
    requires forall i :: 0 <= i < |members| ==> IsNormal(members[i].value)
    ensures Find(members, key).Some? ==> IsNormal(Find(members, key).value)
  {
    if members != [] { FoundIsNormal(members[1..], key); }
  }

  lemma FieldsAreNormal(n: Norm, keys: seq<string>)
    requires IsNormal(n) && RequireFields(n, keys).Some?
    ensures forall i :: 0 <= i < |keys| ==> IsNormal(RequireFields(n, keys).value[i])
  {
    forall i | 0 <= i < |keys| ensures IsNormal(RequireFields(n, keys).value[i]) { FoundIsNormal(n.members, keys[i]); }
  }

  lemma PointIsSound(n: Norm)
    requires IsNormal(n) && ReadPoint(n).Some?
    ensures ValidPoint(ReadPoint(n).value)
  {
    FieldsAreNormal(n, POINT);
  }

  lemma RegionIsSound(n: Norm)
    requires IsNormal(n) && ReadRegion(n).Some?
    ensures ValidRegion(ReadRegion(n).value)
  {
    FieldsAreNormal(n, REGION);
    var items := RequireFields(n, REGION).value[0].items;
    forall i | 0 <= i < |items| && ReadPoint(items[i]).Some? ensures ValidPoint(ReadPoint(items[i]).value) {
      PointIsSound(items[i]);
    }
  }

  lemma RegionsAreSound(items: seq<Norm>)
    requires (forall i :: 0 <= i < |items| ==> IsNormal(items[i])) && ReadAll(items, ReadRegion).Some?
    ensures forall i :: 0 <= i < |items| ==> ValidRegion(ReadAll(items, ReadRegion).value[i])
  {
    forall i | 0 <= i < |items| ensures ValidRegion(ReadAll(items, ReadRegion).value[i]) { RegionIsSound(items[i]); }
  }

  /** What a page that was read satisfies. */
  predicate SoundPage(p: Page, source: Source) {
    && ValidPage(p) && p.provenance.sourceId == source.sourceId && p.provenance.sha256 == source.sha256
    && IsSha256(source.sha256) && ValidBackend(p.provenance.inputBackend) && ValidBackend(p.provenance.extractionBackend)
  }

  lemma ProvenanceIsSound(n: Norm, source: Source)
    requires ReadProvenance(n, source).Some?
    ensures
      var p := ReadProvenance(n, source).value;
      && p.sourceId == source.sourceId && p.sha256 == source.sha256 && IsSha256(source.sha256)
      && ValidBackend(p.inputBackend) && ValidBackend(p.extractionBackend)
  {
    var f := RequireFields(n, PROVENANCE).value;
    BackendIsSound(f[3]);
    BackendIsSound(f[4]);
  }

  lemma BackendIsSound(n: Norm)
    ensures ReadBackend(n).Some? ==> ValidBackend(ReadBackend(n).value)
  {
  }

  lemma PageIsSound(n: Norm, source: Source)
    requires IsNormal(n) && ReadPage(n, source).Some?
    ensures SoundPage(ReadPage(n, source).value.0, source)
  {
    FieldsAreNormal(n, PAGE);
    PartsAreSound(RequireFields(n, PAGE).value, source);
  }

  lemma PartsAreSound(f: seq<Norm>, source: Source)
    requires |f| == 8 && IsNormal(f[5]) && PageOf(f, source).Some?
    ensures SoundPage(PageOf(f, source).value.0, source)
  {
    ProvenanceIsSound(f[0], source);
    RegionsAreSound(f[5].items);
  }

  lemma PagesAreSound(n: Norm, source: Source)
    requires IsNormal(n) && ReadPages(n, source).Some?
    ensures forall i :: 0 <= i < |PagesOf(ReadPages(n, source).value)| ==>
              SoundPage(PagesOf(ReadPages(n, source).value)[i], source)
  {
    var pages := PagesOf(ReadPages(n, source).value);
    forall i | 0 <= i < |pages| ensures SoundPage(pages[i], source) {
      assert PageReader(source)(n.items[i]).Some?;
      PageIsSound(n.items[i], source);
    }
  }

  /** A proper document, with its own text and ranges. */
  predicate SoundResult(dec: Decoded) {
    Presentable(dec.document) && dec.text == TextOf(dec.document.pages) && dec.ranges == RangesOf(dec.document.pages)
  }

  /** The same of a document whose hashes are only what the decoder asks for. */
  predicate AcceptedResult(dec: Decoded) {
    Decodable(dec.document) && dec.text == TextOf(dec.document.pages) && dec.ranges == RangesOf(dec.document.pages)
  }

  /** Whatever is accepted has valid pages, its own text and its own ranges, and
      is a proper document exactly when its hashes are proper. */
  lemma {:induction false} AcceptedResultIsDocument(n: Norm)
    requires IsNormal(n) && ReadResult(n).Some?
    ensures AcceptedResult(ReadResult(n).value)
    ensures SoundResult(ReadResult(n).value) <==> ProperHashes(ReadResult(n).value.document)
  {
    FieldsAreNormal(n, RESULT);
    ResultPartsAreSound(RequireFields(n, RESULT).value);
    PresentableIff(ReadResult(n).value.document);
  }

  lemma ResultPartsAreSound(f: seq<Norm>)
    requires |f| == 7 && IsNormal(f[6]) && ResultOf(f).Some?
    ensures AcceptedResult(ResultOf(f).value)
  {
    var source := ReadSource(f[0]).value;
    SourceIsSound(f[0]);
    PagesAreSound(f[6], source);
    var d := ResultOf(f).value.document;
    forall i | 0 <= i < |d.pages| ensures SoundPage(d.pages[i], d.source) && d.pages[i].provenance.pageNumber == i + 1 {}
    assert ValidDocument(d);
    if d.pages != [] { assert SoundPage(d.pages[0], d.source); }
  }

  lemma SourceIsSound(n: Norm)
    requires ReadSource(n).Some?
    ensures
      var s := ReadSource(n).value;
      s.sourceId != "" && IsHashText(s.sha256) && IsMediaType(s.mediaType)
  {
  }

  /** No text, canonical or not, makes the decoder return anything else. */
  lemma {:induction false} AcceptedResponseIsDocument(text: string)
    requires DecodeResponse(text).Some?
    ensures
      var (requestId, dec) := DecodeResponse(text).value;
      requestId != "" && AcceptedResult(dec) && (SoundResult(dec) <==> ProperHashes(dec.document))
  {
    var n := DecodeCanonical(text).value;
    FieldsAreNormal(n, RESPONSE);
    AcceptedResultIsDocument(RequireFields(n, RESPONSE).value[3]);
  }

  // ---------------------------------------------------------------- accepted, and no document

  /** A document like the sample, under another parser fingerprint. */
  function DocumentUnder(fingerprint: string): Document {
    DocumentWith(Zero).(fingerprint := fingerprint)
  }

  /** Every fingerprint that only passes the decoder's test comes back from a
      response, in a document whose own validation would refuse it. */
  lemma LooseFingerprintIsAccepted(fingerprint: string, requestId: string)
    requires IsHashText(fingerprint) && !IsSha256(fingerprint) && requestId != ""
    ensures Decodable(DocumentUnder(fingerprint)) && !Presentable(DocumentUnder(fingerprint))
    ensures Valid(ResponseJson(requestId, DocumentUnder(fingerprint)))
    ensures
      var d := DocumentUnder(fingerprint);
      var encoded := Encode(ResponseJson(requestId, d));
      encoded.Ok? && DecodeResponse(encoded.value) == Some((requestId, Decoded(d, TextOf(d.pages), RangesOf(d.pages))))
  {
    var d := DocumentUnder(fingerprint);
    SampleIsPresentable(Zero);
    PresentableIff(DocumentWith(Zero));
    UnderIsDecodable(fingerprint);
    SampleCounts(Zero);
    assert d.pages == DocumentWith(Zero).pages && CountsSafe(d);
    UnderIsSafe(fingerprint);
    ResponseReturnsIff(requestId, d);
  }

  lemma UnderIsDecodable(fingerprint: string)
    requires IsHashText(fingerprint) && Decodable(DocumentWith(Zero))
    ensures Decodable(DocumentUnder(fingerprint))
  {
  }

  lemma UnderIsSafe(fingerprint: string)
    ensures SafeDocument(DocumentUnder(fingerprint))
  {
    assert SafeNumber(Zero);
    assert forall i :: 0 <= i < 4 ==> SafePoint(PageWith(Zero).regions[0].polygon[i]);
    assert SafeRegion(PageWith(Zero).regions[0]);
    assert SafePage(PageWith(Zero));
  }

  /** There are such fingerprints: the base prefix takes the place of two digits. */
  lemma LooseFingerprintExists()
    ensures IsHashText("sha256:" + "0x" + Zeros(62)) && !IsSha256("sha256:" + "0x" + Zeros(62))
  {
    PrefixedHash("0x", Zeros(62));
  }
}
