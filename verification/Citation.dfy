/** Literal support of citation evidence (knowledge/citation.py): a two-row
    dynamic program for the longest shared run of tokens, the features built on
    it, and the ranking by them. Token spans are given. */
module Citation {
  import opened Outcomes
  import opened Sorting

  type Tokens = seq<Id>

  function Max(a: nat, b: nat): nat {
    if a < b then b else a
  }

  // ---------------------------------------------------------------- shared runs

  /** k tokens of the span from a on stand in the document from b on. */
  predicate RunAt(span: Tokens, document: Tokens, a: nat, b: nat, k: nat) {
    a + k <= |span| && b + k <= |document| && span[a..a + k] == document[b..b + k]
  }

  ghost predicate SharesRun(span: Tokens, document: Tokens, k: nat) {
    exists a: nat, b: nat :: RunAt(span, document, a, b, k)
  }

  /** The span occurs whole in the document. */
  ghost predicate Occurs(span: Tokens, document: Tokens) {
    exists b: nat :: RunAt(span, document, 0, b, |span|)
  }

  /** The length of the longest run that ends at both positions. */
  function RunEnding(span: Tokens, document: Tokens, i: nat, j: nat): (k: nat)
    requires i <= |span| && j <= |document|
    ensures k <= i && k <= j
  {
    if i == 0 || j == 0 || span[i - 1] != document[j - 1] then 0
    else RunEnding(span, document, i - 1, j - 1) + 1
  }

  lemma {:induction false} RunEndingIsRun(span: Tokens, document: Tokens, i: nat, j: nat)
    requires i <= |span| && j <= |document|
    ensures
      var k := RunEnding(span, document, i, j);
      RunAt(span, document, i - k, j - k, k)
  {
    var k := RunEnding(span, document, i, j);
    if k > 0 {
      RunEndingIsRun(span, document, i - 1, j - 1);
      assert span[i - k..i] == span[i - k..i - 1] + [span[i - 1]];
      assert document[j - k..j] == document[j - k..j - 1] + [document[j - 1]];
    }
  }

  lemma {:induction false} RunEndingIsLongest(span: Tokens, document: Tokens, a: nat, b: nat, k: nat)
    requires RunAt(span, document, a, b, k)
    ensures k <= RunEnding(span, document, a + k, b + k)
  {
    if k > 0 {
      assert span[a..a + k][k - 1] == document[b..b + k][k - 1];
      assert span[a..a + k - 1] == span[a..a + k][..k - 1] == document[b..b + k][..k - 1] == document[b..b + k - 1];
      RunEndingIsLongest(span, document, a, b, k - 1);
    }
  }

  /** The greatest run length in the rows before i, and in row i up to j. */
  ghost predicate BestSoFar(span: Tokens, document: Tokens, i: nat, j: nat, longest: nat)
    requires i <= |span| && j <= |document|
  {
    && (forall x: nat, y: nat :: x <= |span| && y <= |document| && (x < i || (x == i && y <= j)) ==>
          RunEnding(span, document, x, y) <= longest)
    && exists x: nat, y: nat :: x <= |span| && y <= |document| && RunEnding(span, document, x, y) == longest
  }

  ghost predicate Row(row: seq<nat>, span: Tokens, document: Tokens, i: nat, upTo: nat)
    requires i <= |span| && upTo <= |document|
  {
    |row| == |document| + 1 && forall y :: 0 <= y <= upTo ==> row[y] == RunEnding(span, document, i, y)
  }

  /** The longest run of tokens contiguous in both. */
  method LongestContiguousMatch(span: Tokens, document: Tokens) returns (longest: nat)
    ensures SharesRun(span, document, longest)
    ensures forall k: nat :: SharesRun(span, document, k) ==> k <= longest
  {
    longest := 0;
    if span == [] || document == [] {
      assert RunAt(span, document, 0, 0, 0);
      return;
    }
    var previous := new nat[|document| + 1](_ => 0);
    assert RunEnding(span, document, 0, 0) == 0;
    for i := 0 to |span|
      invariant previous.Length == |document| + 1
      invariant Row(previous[..], span, document, i, |document|)
      invariant BestSoFar(span, document, i, |document|, longest)
    {
      var current := new nat[|document| + 1](_ => 0);
      longest := FillRow(span, document, i, previous, current, longest);
      previous := current;
    }
    LongestOfAll(span, document, longest);
  }

  /** The inner loop: the row after token i. Cells of different tokens stay zero. */
  method FillRow(span: Tokens, document: Tokens, i: nat, previous: array<nat>, current: array<nat>, best: nat)
    returns (longest: nat)
    requires i < |span| && previous != current
    requires Row(previous[..], span, document, i, |document|) && BestSoFar(span, document, i, |document|, best)
    requires current.Length == |document| + 1 && forall y :: 0 <= y <= |document| ==> current[y] == 0
    modifies current
    ensures Row(current[..], span, document, i + 1, |document|)
    ensures BestSoFar(span, document, i + 1, |document|, longest)
  {
    longest := best;
    for j := 0 to |document|
      invariant forall y :: 0 <= y <= j ==> current[y] == RunEnding(span, document, i + 1, y)
      invariant forall y :: j < y <= |document| ==> current[y] == 0
      invariant BestSoFar(span, document, i + 1, j, longest)
    {
      assert previous[j] == previous[..][j] == RunEnding(span, document, i, j);
      if span[i] == document[j] {
        current[j + 1] := previous[j] + 1;
        longest := Max(longest, current[j + 1]);
      }
      assert current[j + 1] == RunEnding(span, document, i + 1, j + 1);
    }
  }

  lemma LongestOfAll(span: Tokens, document: Tokens, longest: nat)
    requires BestSoFar(span, document, |span|, |document|, longest)
    ensures SharesRun(span, document, longest)
    ensures forall k: nat :: SharesRun(span, document, k) ==> k <= longest
  {
    var x: nat, y: nat :| x <= |span| && y <= |document| && RunEnding(span, document, x, y) == longest;
    RunEndingIsRun(span, document, x, y);
    assert RunAt(span, document, x - longest, y - longest, longest);
    forall k: nat | SharesRun(span, document, k) ensures k <= longest {
      var a: nat, b: nat :| RunAt(span, document, a, b, k);
      RunEndingIsLongest(span, document, a, b, k);
    }
  }

  // ---------------------------------------------------------------- support

  datatype Support = Support(direct: nat, contiguous: nat, coverage: real)

  /** How many tokens of the span stand anywhere in the document. */
  function Covered(span: Tokens, document: Tokens): (n: nat)
    ensures n <= |span|
  {
    if span == [] then 0
    else Covered(span[..|span| - 1], document) + if span[|span| - 1] in document then 1 else 0
  }

  function Coverage(span: Tokens, document: Tokens): real
    requires span != []
  {
    Covered(span, document) as real / |span| as real
  }

  ghost predicate IsDirect(spans: seq<Tokens>, document: Tokens, direct: nat) {
    && (forall span :: span in spans && Occurs(span, document) ==> |span| <= direct)
    && (direct > 0 ==> exists span :: span in spans && Occurs(span, document) && |span| == direct)
  }

  ghost predicate IsContiguous(spans: seq<Tokens>, document: Tokens, contiguous: nat) {
    && (forall span, k: nat :: span in spans && SharesRun(span, document, k) ==> k <= contiguous)
    && (contiguous > 0 ==> exists span :: span in spans && SharesRun(span, document, contiguous))
  }

  ghost predicate IsCoverage(spans: seq<Tokens>, document: Tokens, coverage: real)
    requires forall span :: span in spans ==> span != []
  {
    && coverage >= 0.0
    && (forall span :: span in spans ==> Coverage(span, document) <= coverage)
    && (coverage > 0.0 ==> exists span :: span in spans && Coverage(span, document) == coverage)
  }

  /** The longest whole span, the longest run of any span, and the best share of
      a span's tokens, in one document. */
  ghost predicate IsSupport(spans: seq<Tokens>, document: Tokens, s: Support)
    requires forall span :: span in spans ==> span != []
  {
    && IsDirect(spans, document, s.direct) && IsContiguous(spans, document, s.contiguous)
    && IsCoverage(spans, document, s.coverage)
  }

  lemma CoverageBounds(span: Tokens, document: Tokens)
    requires span != []
    ensures 0.0 <= Coverage(span, document) <= 1.0
    ensures Covered(span, document) == |span| ==> Coverage(span, document) == 1.0
  {
  }

  lemma OccursIsLongest(span: Tokens, document: Tokens, longest: nat)
    requires SharesRun(span, document, longest)
    requires forall k: nat :: SharesRun(span, document, k) ==> k <= longest
    ensures longest == |span| <==> Occurs(span, document)
    ensures longest <= |span|
  {
    var a: nat, b: nat :| RunAt(span, document, a, b, longest);
    if longest == |span| { assert RunAt(span, document, 0, b, |span|); }
    if Occurs(span, document) {
      var c: nat :| RunAt(span, document, 0, c, |span|);
      assert SharesRun(span, document, |span|);
    }
  }

  method SpanSupport(spans: seq<Tokens>, document: Tokens) returns (s: Support)
    requires forall span :: span in spans ==> span != []
    ensures IsSupport(spans, document, s)
  {
    var direct, contiguous, coverage := 0, 0, 0.0;
    for i := 0 to |spans|
      invariant forall span :: span in spans[..i] ==> span != []
      invariant IsDirect(spans[..i], document, direct)
      invariant IsContiguous(spans[..i], document, contiguous)
      invariant coverage >= 0.0 && IsCoverage(spans[..i], document, coverage)
    {
      var span := spans[i];
      assert spans[..i + 1] == spans[..i] + [span];
      assert span in spans;
      var longest := LongestContiguousMatch(span, document);
      OccursIsLongest(span, document, longest);
      CoverageBounds(span, document);
      MoreDirect(spans[..i], span, document, direct);
      MoreContiguous(spans[..i], span, document, contiguous, longest);
      contiguous := Max(contiguous, longest);
      if longest == |span| { direct := Max(direct, |span|); }
      if coverage < Coverage(span, document) { coverage := Coverage(span, document); }
    }
    assert spans[..|spans|] == spans;
    s := Support(direct, contiguous, coverage);
  }

  lemma MoreDirect(spans: seq<Tokens>, span: Tokens, document: Tokens, direct: nat)
    requires IsDirect(spans, document, direct)
    ensures IsDirect(spans + [span], document, if Occurs(span, document) then Max(direct, |span|) else direct)
  {
    assert span in spans + [span];
    if direct > 0 {
      var best :| best in spans && Occurs(best, document) && |best| == direct;
      assert best in spans + [span];
    }
  }

  lemma MoreContiguous(spans: seq<Tokens>, span: Tokens, document: Tokens, contiguous: nat, longest: nat)
    requires IsContiguous(spans, document, contiguous)
    requires SharesRun(span, document, longest) && forall k: nat :: SharesRun(span, document, k) ==> k <= longest
    ensures IsContiguous(spans + [span], document, Max(contiguous, longest))
  {
    assert span in spans + [span];
    if contiguous > 0 {
      var best :| best in spans && SharesRun(best, document, contiguous);
      assert best in spans + [span];
    }
  }

  lemma {:induction false} RunCovers(span: Tokens, document: Tokens, b: nat)
    requires b + |span| <= |document| && document[b..b + |span|] == span
    ensures Covered(span, document) == |span|
  {
    if span != [] {
      var n := |span| - 1;
      assert document[b..b + |span|][n] == span[n];
      assert document[b..b + n] == document[b..b + |span|][..n] == span[..n];
      RunCovers(span[..n], document, b);
    }
  }

  /** Direct support means a span that occurs whole; it is a shared run, and it
      covers that span fully. */
  lemma {:induction false} DirectSupport(spans: seq<Tokens>, document: Tokens, s: Support)
    requires forall span :: span in spans ==> span != []
    requires IsSupport(spans, document, s)
    ensures s.direct > 0 <==> exists span :: span in spans && Occurs(span, document)
    ensures s.direct <= s.contiguous
    ensures s.direct > 0 ==> s.coverage == 1.0
    ensures 0.0 <= s.coverage <= 1.0
  {
    if span :| span in spans && Occurs(span, document) {
      var b: nat :| RunAt(span, document, 0, b, |span|);
      assert span[0..|span|] == span;
      RunCovers(span, document, b);
      CoverageBounds(span, document);
    }
    if s.direct > 0 {
      var span :| span in spans && Occurs(span, document) && |span| == s.direct;
      var b: nat :| RunAt(span, document, 0, b, |span|);
      assert SharesRun(span, document, s.direct);
    }
    if s.coverage > 0.0 {
      var span :| span in spans && Coverage(span, document) == s.coverage;
      CoverageBounds(span, document);
    }
  }

  /** The features are determined by the spans and the document. */
  lemma SupportUnique(spans: seq<Tokens>, document: Tokens, s: Support, t: Support)
    requires forall span :: span in spans ==> span != []
    requires IsSupport(spans, document, s) && IsSupport(spans, document, t)
    ensures s == t
  {
    DirectUnique(spans, document, s.direct, t.direct);
    DirectUnique(spans, document, t.direct, s.direct);
    ContiguousUnique(spans, document, s.contiguous, t.contiguous);
    ContiguousUnique(spans, document, t.contiguous, s.contiguous);
  }

  lemma DirectUnique(spans: seq<Tokens>, document: Tokens, x: nat, y: nat)
    requires IsDirect(spans, document, x) && IsDirect(spans, document, y)
    ensures x <= y
  {
  }

  lemma ContiguousUnique(spans: seq<Tokens>, document: Tokens, x: nat, y: nat)
    requires IsContiguous(spans, document, x) && IsContiguous(spans, document, y)
    ensures x <= y
  {
  }

  // ---------------------------------------------------------------- ranking

  /** A retrieved page: its text is the document's tokens. */
  datatype Evidence = Evidence(id: string, source: Id, document: Tokens, score: real)

  datatype Query = Query(claims: seq<Tokens>, assertions: seq<Tokens>, anchors: map<Id, seq<Tokens>>)

  datatype Ranked = Ranked(evidence: Evidence, claim: Support, assertion: Support, anchor: Support)

  ghost predicate ValidQuery(q: Query) {
    && (forall span :: span in q.claims ==> span != [])
    && (forall span :: span in q.assertions ==> span != [])
    && forall source :: source in q.anchors ==> forall span :: span in q.anchors[source] ==> span != []
  }

  function AnchorsOf(q: Query, source: Id): (spans: seq<Tokens>)
    ensures ValidQuery(q) ==> forall span :: span in spans ==> span != []
  {
    if source in q.anchors then q.anchors[source] else []
  }

  function Features(s: Support): seq<real> {
    [s.direct as real, s.contiguous as real, s.coverage]
  }

  /** The features in order of weight, and the retrieval score. */
  function RankingKey(q: Query, r: Ranked): (key: seq<real>)
    ensures |key| == 10
  {
    var claim, assertion, anchor := Features(r.claim), Features(r.assertion), Features(r.anchor);
    (if q.claims != [] then claim + assertion + anchor
     else if q.assertions != [] then assertion + anchor + claim
     else anchor + assertion + claim) + [r.evidence.score]
  }

  /** Lexicographic, greatest first. */
  predicate GreaterKey(a: seq<real>, b: seq<real>)
    requires |a| == |b|
  {
    a != [] && (a[0] > b[0] || (a[0] == b[0] && GreaterKey(a[1..], b[1..])))
  }

  function Before(q: Query): (Ranked, Ranked) -> bool {
    (a: Ranked, b: Ranked) =>
      var x, y := RankingKey(q, a), RankingKey(q, b);
      GreaterKey(x, y) || (x == y && TextLess(a.evidence.id, b.evidence.id))
  }

  lemma {:induction false} GreaterKeyOrder(a: seq<real>, b: seq<real>, c: seq<real>)
    requires |a| == |b| == |c|
    ensures GreaterKey(a, b) && GreaterKey(b, c) ==> GreaterKey(a, c)
    ensures !(GreaterKey(a, b) && GreaterKey(b, a))
    ensures GreaterKey(a, b) || GreaterKey(b, a) || a == b
    ensures a == b ==> !GreaterKey(a, b)
  {
    if a != [] {
      GreaterKeyOrder(a[1..], b[1..], c[1..]);
      assert a == [a[0]] + a[1..] && b == [b[0]] + b[1..];
    }
  }

  lemma BeforeIsStrict(q: Query)
    ensures StrictOrder(Before(q))
  {
    forall a, b | Before(q)(a, b) ensures !Before(q)(b, a) {
      GreaterKeyOrder(RankingKey(q, a), RankingKey(q, b), RankingKey(q, b));
      TextLessOrder(a.evidence.id, b.evidence.id, b.evidence.id);
    }
    forall a, b, c | Before(q)(a, b) && Before(q)(b, c) ensures Before(q)(a, c) {
      GreaterKeyOrder(RankingKey(q, a), RankingKey(q, b), RankingKey(q, c));
      TextLessOrder(a.evidence.id, b.evidence.id, c.evidence.id);
    }
  }

  predicate DistinctIds(candidates: seq<Evidence>) {
    forall i, j :: 0 <= i < j < |candidates| ==> candidates[i].id != candidates[j].id
  }

  /** The features of a ranked page are those of its evidence. */
  ghost predicate Scores(q: Query, r: Ranked)
    requires ValidQuery(q)
  {
    && IsSupport(q.claims, r.evidence.document, r.claim)
    && IsSupport(q.assertions, r.evidence.document, r.assertion)
    && IsSupport(AnchorsOf(q, r.evidence.source), r.evidence.document, r.anchor)
  }

  function Pages(ranked: seq<Ranked>): seq<Evidence> {
    seq(|ranked|, i requires 0 <= i < |ranked| => ranked[i].evidence)
  }

  /** A ranking of the candidates: all of them, scored, the best first. */
  ghost predicate IsRanking(q: Query, candidates: seq<Evidence>, ranked: seq<Ranked>)
    requires ValidQuery(q)
  {
    && Ordered(ranked, Before(q))
    && (forall r :: r in ranked ==> Scores(q, r))
    && SameElements(Pages(ranked), candidates)
  }

  method Rank(q: Query, candidates: seq<Evidence>) returns (ranked: seq<Ranked>)
    requires ValidQuery(q)
    ensures multiset(Pages(ranked)) == multiset(candidates)
    ensures forall r :: r in ranked ==> Scores(q, r)
    ensures DistinctIds(candidates) ==> IsRanking(q, candidates, ranked)
  {
    var scored := [];
    for i := 0 to |candidates|
      invariant Pages(scored) == candidates[..i]
      invariant forall r :: r in scored ==> Scores(q, r)
    {
      var page := candidates[i];
      var claim := SpanSupport(q.claims, page.document);
      var assertion := SpanSupport(q.assertions, page.document);
      var anchor := SpanSupport(AnchorsOf(q, page.source), page.document);
      var r := Ranked(page, claim, assertion, anchor);
      assert Pages(scored + [r]) == Pages(scored) + [page];
      scored := scored + [r];
    }
    assert candidates[..|candidates|] == candidates;
    ranked := Sort(scored, Before(q));
    SortElements(scored, Before(q));
    SortKeepsPages(scored, Before(q));
    if DistinctIds(candidates) {
      BeforeIsStrict(q);
      DistinctAreComparable(q, scored);
      SortOrders(scored, Before(q));
      assert forall c :: c in candidates <==> c in multiset(candidates);
      assert forall c :: c in Pages(ranked) <==> c in multiset(Pages(ranked));
    }
  }

  lemma {:induction false} SortKeepsPages(rs: seq<Ranked>, less: (Ranked, Ranked) -> bool)
    ensures multiset(Pages(Sort(rs, less))) == multiset(Pages(rs))
  {
    if rs != [] {
      SortKeepsPages(rs[1..], less);
      InsertAddsPage(Sort(rs[1..], less), rs[0], less);
      assert Pages(rs) == [rs[0].evidence] + Pages(rs[1..]);
    }
  }

  lemma {:induction false} InsertAddsPage(rs: seq<Ranked>, r: Ranked, less: (Ranked, Ranked) -> bool)
    ensures multiset(Pages(Insert(rs, r, less))) == multiset(Pages(rs)) + multiset{r.evidence}
  {
    if rs == [] || less(r, rs[0]) {
      assert Pages([r] + rs) == [r.evidence] + Pages(rs);
    } else {
      InsertAddsPage(rs[1..], r, less);
      assert Pages(rs) == [rs[0].evidence] + Pages(rs[1..]);
      assert Pages(Insert(rs, r, less)) == [rs[0].evidence] + Pages(Insert(rs[1..], r, less));
    }
  }

  lemma DistinctAreComparable(q: Query, scored: seq<Ranked>)
    requires DistinctIds(Pages(scored))
    ensures Comparable(scored, Before(q))
  {
    forall i, j | 0 <= i < j < |scored| ensures Before(q)(scored[i], scored[j]) || Before(q)(scored[j], scored[i]) {
      var a, b := scored[i], scored[j];
      assert Pages(scored)[i].id != Pages(scored)[j].id;
      GreaterKeyOrder(RankingKey(q, a), RankingKey(q, b), RankingKey(q, b));
      TextLessOrder(a.evidence.id, b.evidence.id, b.evidence.id);
    }
  }

  /** A ranking depends on which pages there are, not on the order in which they
      were retrieved. */
  lemma {:induction false} RankingIgnoresOrder(
    q: Query, candidates: seq<Evidence>, ranked: seq<Ranked>, others: seq<Evidence>, ranked': seq<Ranked>)
    requires ValidQuery(q) && SameElements(candidates, others)
    requires IsRanking(q, candidates, ranked) && IsRanking(q, others, ranked')
    ensures ranked == ranked'
  {
    BeforeIsStrict(q);
    forall r ensures r in ranked <==> r in ranked' {
      RankedAlike(q, candidates, ranked, others, ranked', r);
      RankedAlike(q, others, ranked', candidates, ranked, r);
    }
    OrderedUnique(ranked, ranked', Before(q));
  }

  lemma RankedAlike(
    q: Query, candidates: seq<Evidence>, ranked: seq<Ranked>, others: seq<Evidence>, ranked': seq<Ranked>, r: Ranked)
    requires ValidQuery(q) && SameElements(candidates, others)
    requires IsRanking(q, candidates, ranked) && IsRanking(q, others, ranked')
    ensures r in ranked ==> r in ranked'
  {
    if r in ranked {
      var i :| 0 <= i < |ranked| && ranked[i] == r;
      assert Pages(ranked)[i] == r.evidence;
      assert r.evidence in Pages(ranked');
      var j :| 0 <= j < |ranked'| && Pages(ranked')[j] == r.evidence;
      assert ranked'[j] in ranked';
      SupportUnique(q.claims, r.evidence.document, r.claim, ranked'[j].claim);
      SupportUnique(q.assertions, r.evidence.document, r.assertion, ranked'[j].assertion);
      SupportUnique(AnchorsOf(q, r.evidence.source), r.evidence.document, r.anchor, ranked'[j].anchor);
    }
  }

  // ---------------------------------------------------------------- spans without repetition

  /** Keeps each nonempty span once, where it came first. */
  method Deduplicate(values: seq<Tokens>) returns (spans: seq<Tokens>)
    ensures forall span :: span in spans <==> span in values && span != []
    ensures forall i, j :: 0 <= i < j < |spans| ==> spans[i] != spans[j]
  {
    var seen: set<Tokens> := {};
    spans := [];
    for i := 0 to |values|
      invariant forall span :: span in spans <==> span in values[..i] && span != []
      invariant forall span :: span in seen <==> span in spans
      invariant forall x, y :: 0 <= x < y < |spans| ==> spans[x] != spans[y]
    {
      assert values[..i + 1] == values[..i] + [values[i]];
      if values[i] != [] && values[i] !in seen {
        seen, spans := seen + {values[i]}, spans + [values[i]];
      }
    }
    assert values[..|values|] == values;
  }
}
