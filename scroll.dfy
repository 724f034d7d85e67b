/**
 * scrollSaerch in service/storage/elasticsearch/es.go: paged retrieval of
 * the documents matching a bool query. Page 1 fixes the number of documents
 * wanted (its total hit count, capped by the query.max-size flag when that
 * is positive); pages are fetched until `page * QuerySize` reaches that
 * count, and the collected hits are cut to it.
 *
 * The scroll service is given as the sequence of outcomes its successive
 * Do calls return; once the sequence is used up, every further call
 * returns EOF, as a drained scroll does.
 */
module EsScroll {
  import opened Wrappers
  import EsSamples

  datatype ScrollError = EOF | BackendError(message: string)

  /** What one Do call returns: a page with the total hit count and its hits, or an error. */
  datatype PageOutcome =
    | Page(totalHits: nat, hits: seq<EsSamples.Sample>)
    | Failure(error: ScrollError)

  /**
   * What scrollSaerch returns: (nil, nil) when page 1 is EOF, the collected
   * documents, or (nil, err) with the page whose call failed.
   */
  datatype ScrollResult =
    | NoResults
    | Found(samples: seq<EsSamples.Sample>)
    | ScrollFailed(page: nat, error: ScrollError)

  /** The outcome of the Do call for the given page (pages count from 1). */
  function PageAt(pages: seq<PageOutcome>, page: nat): (o: PageOutcome)
    ensures o.Page? ==> 1 <= page <= |pages|
    ensures page > |pages| ==> o == Failure(EOF)
  {
    if 1 <= page <= |pages| then pages[page - 1] else Failure(EOF)
  }

  function Min(a: int, b: int): int { if a <= b then a else b }

  /** The count of documents wanted: the total hits, lowered to queryMaxSize when that is positive and smaller. */
  function Cap(totalHits: nat, queryMaxSize: int): (count: nat)
    ensures queryMaxSize > 0 ==> count == Min(totalHits, queryMaxSize)
    ensures queryMaxSize <= 0 ==> count == totalHits
  {
    if queryMaxSize > 0 && totalHits > queryMaxSize then queryMaxSize else totalHits
  }

  /** The stop test at the end of each page. */
  predicate Reaches(page: nat, querySize: int, count: nat)
  {
    page * querySize >= count
  }

  /** The number of pages fetched when QuerySize is positive: the first page that reaches the count. */
  function PagesNeeded(count: nat, querySize: int): (n: nat)
    requires querySize > 0
    ensures n >= 1 && Reaches(n, querySize, count)
    ensures forall p :: 1 <= p < n ==> !Reaches(p, querySize, count)
    decreases count
  {
    if count <= querySize then 1
    else
      var rest := PagesNeeded(count - querySize, querySize);
      assert (rest + 1) * querySize == rest * querySize + querySize;
      forall p | 1 <= p < rest + 1 ensures !Reaches(p, querySize, count) {
        if p > 1 {
          assert (p - 1) * querySize == p * querySize - querySize;
          assert !Reaches(p - 1, querySize, count - querySize);
        }
      }
      rest + 1
  }

  /** PagesNeeded is max(1, ceil(count / QuerySize)). */
  lemma PagesNeededIsCeiling(count: nat, querySize: int)
    requires querySize > 0
    ensures PagesNeeded(count, querySize) == if count == 0 then 1 else (count + querySize - 1) / querySize
  {
    var n := PagesNeeded(count, querySize);
    if count > 0 {
      var c := (count + querySize - 1) / querySize;
      var r := (count + querySize - 1) % querySize;
      assert c * querySize + r == count + querySize - 1;
      assert 0 <= r < querySize;
      assert Reaches(c, querySize, count);
      MulStrict(c, querySize);
      assert c >= n;
      if n < c {
        MulMonotone(n, c - 1, querySize);
        assert false;
      }
    }
  }

  lemma MulMonotone(a: nat, b: nat, q: int)
    requires a <= b && q > 0
    ensures a * q <= b * q
  {
  }

  lemma MulStrict(c: int, q: int)
    requires q > 0 && c * q > 0
    ensures c >= 1
  {
  }

  /**
   * The page at which the loop stops, if it stops before the scroll runs
   * out: with QuerySize <= 0 the product never grows, so only a zero count
   * with QuerySize 0 stops it (at page 1).
   */
  function StopPage(count: nat, querySize: int): (r: Option<nat>)
    ensures r.Some? ==> r.value >= 1 && Reaches(r.value, querySize, count)
    ensures r.Some? ==> forall p :: 1 <= p < r.value ==> !Reaches(p, querySize, count)
    ensures r.None? ==> forall p :: p >= 1 ==> !Reaches(p, querySize, count)
  {
    if querySize > 0 then Some(PagesNeeded(count, querySize))
    else if querySize == 0 && count == 0 then Some(1)
    else
      assert forall p: nat :: p >= 1 ==> p * querySize <= querySize by {
        forall p: nat | p >= 1 ensures p * querySize <= querySize {
          assert p * querySize == querySize + (p - 1) * querySize;
        }
      }
      None
  }

  /** The first page in lo..hi whose call fails, if any. */
  function FirstFailure(pages: seq<PageOutcome>, lo: nat, hi: nat): (r: Option<nat>)
    ensures r.Some? ==> lo <= r.value <= hi && PageAt(pages, r.value).Failure?
    ensures r.Some? ==> forall p :: lo <= p < r.value ==> PageAt(pages, p).Page?
    ensures r.None? ==> forall p :: lo <= p <= hi ==> PageAt(pages, p).Page?
    decreases hi + 1 - lo
  {
    if lo > hi then None
    else if PageAt(pages, lo).Failure? then Some(lo)
    else FirstFailure(pages, lo + 1, hi)
  }

  function Hits(o: PageOutcome): seq<EsSamples.Sample>
  {
    if o.Page? then o.hits else []
  }

  /** The hits of pages 1..n, concatenated in page order. */
  function Fetched(pages: seq<PageOutcome>, n: nat): seq<EsSamples.Sample>
  {
    if n == 0 then [] else Fetched(pages, n - 1) + Hits(PageAt(pages, n))
  }

  /** `samples[0:count]` when there are more than count samples. */
  function Truncate(s: seq<EsSamples.Sample>, count: nat): (r: seq<EsSamples.Sample>)
    ensures |r| == Min(|s|, count)
    ensures r == s[..|r|]
  {
    if |s| > count then s[..count] else s
  }

  /**
   * The result of scrollSaerch on the given page outcomes: EOF on page 1 is
   * "no results", any other failure before the stop page is an error, and
   * otherwise the hits of the pages up to the stop page, cut to the count.
   */
  function ScrollSpec(pages: seq<PageOutcome>, querySize: int, queryMaxSize: int): ScrollResult
  {
    match PageAt(pages, 1)
    case Failure(e) => if e == EOF then NoResults else ScrollFailed(1, e)
    case Page(totalHits, _) =>
      var count := Cap(totalHits, queryMaxSize);
      match StopPage(count, querySize)
      case Some(n) =>
        FirstFailureWithinScroll(pages, 2, n);
        (match FirstFailure(pages, 2, n)
         case Some(k) => ScrollFailed(k, PageAt(pages, k).error)
         case None => Found(Truncate(Fetched(pages, n), count)))
      case None =>
        var last := |pages| + 1;
        FirstFailureWithinScroll(pages, 2, last);
        var k := FirstFailure(pages, 2, last);
        ScrollFailed(k.value, PageAt(pages, k.value).error)
  }

  /** What scrollSaerch promises for each kind of result. */
  lemma ScrollSpecContract(pages: seq<PageOutcome>, querySize: int, queryMaxSize: int)
    ensures var r := ScrollSpec(pages, querySize, queryMaxSize);
      r.NoResults? <==> PageAt(pages, 1) == Failure(EOF)
    ensures var r := ScrollSpec(pages, querySize, queryMaxSize);
      PageAt(pages, 1).Failure? && PageAt(pages, 1) != Failure(EOF) ==>
        r == ScrollFailed(1, PageAt(pages, 1).error)
    ensures var r := ScrollSpec(pages, querySize, queryMaxSize);
      r.ScrollFailed? ==>
        && r.page >= 1
        && PageAt(pages, r.page) == Failure(r.error)
        && (r.page > 1 ==> r.page <= |pages| + 1 && PageAt(pages, 1).Page?)
        && (forall p :: 1 <= p < r.page ==> PageAt(pages, p).Page?)
    ensures var r := ScrollSpec(pages, querySize, queryMaxSize);
      r.Found? ==>
        && PageAt(pages, 1).Page?
        && (querySize > 0 || Cap(PageAt(pages, 1).totalHits, queryMaxSize) == 0)
        && |r.samples| <= Cap(PageAt(pages, 1).totalHits, queryMaxSize)
  {
    if PageAt(pages, 1).Page? {
      var count := Cap(PageAt(pages, 1).totalHits, queryMaxSize);
      match StopPage(count, querySize)
      case Some(n) =>
        FirstFailureWithinScroll(pages, 2, n);
      case None =>
        FirstFailureWithinScroll(pages, 2, |pages| + 1);
    }
  }

  /** The page loop of scrollSaerch. */
  method ScrollSearch(pages: seq<PageOutcome>, querySize: int, queryMaxSize: int) returns (result: ScrollResult)
    ensures result == ScrollSpec(pages, querySize, queryMaxSize)
  {
    var samples: seq<EsSamples.Sample> := [];
    var count: nat := 0;
    var page: nat := 1;
    while true
      invariant 1 <= page <= |pages| + 1
      invariant page > 1 ==> PageAt(pages, 1).Page? && count == Cap(PageAt(pages, 1).totalHits, queryMaxSize)
      invariant forall p :: 1 <= p < page ==> PageAt(pages, p).Page?
      invariant forall p :: 1 <= p < page ==> !Reaches(p, querySize, count)
      invariant samples == Fetched(pages, page - 1)
      decreases |pages| + 1 - page
    {
      var outcome := PageAt(pages, page);
      if outcome == Failure(EOF) && page == 1 {
        return NoResults;
      }
      if outcome.Failure? {
        if page > 1 {
          FailsAt(pages, querySize, queryMaxSize, page);
        }
        return ScrollFailed(page, outcome.error);
      }
      if page == 1 {
        count := Cap(outcome.totalHits, queryMaxSize);
      }
      samples := samples + outcome.hits;
      if page * querySize >= count {
        break;
      }
      page := page + 1;
    }
    StopsAt(pages, querySize, queryMaxSize, page);
    if |samples| > count {
      samples := samples[..count];
    }
    result := Found(samples);
  }

  /** Within a range that reaches past the sequence, a drained scroll always fails, at the latest one past the end. */
  lemma {:induction false} FirstFailureWithinScroll(pages: seq<PageOutcome>, lo: nat, hi: nat)
    requires lo <= |pages| + 1
    ensures FirstFailure(pages, lo, hi).Some? ==> FirstFailure(pages, lo, hi).value <= |pages| + 1
    ensures hi >= |pages| + 1 ==> FirstFailure(pages, lo, hi).Some?
    decreases hi + 1 - lo
  {
    if lo <= hi && PageAt(pages, lo).Page? {
      FirstFailureWithinScroll(pages, lo + 1, hi);
    }
  }

  lemma FirstFailureAt(pages: seq<PageOutcome>, lo: nat, hi: nat, k: nat)
    requires lo <= k <= hi && PageAt(pages, k).Failure?
    requires forall p :: lo <= p < k ==> PageAt(pages, p).Page?
    ensures FirstFailure(pages, lo, hi) == Some(k)
  {
  }

  lemma StopPageAt(count: nat, querySize: int, page: nat)
    requires page >= 1 && Reaches(page, querySize, count)
    requires forall p :: 1 <= p < page ==> !Reaches(p, querySize, count)
    ensures StopPage(count, querySize) == Some(page)
  {
  }

  /** A failure on page k after k - 1 pages that did not reach the count is what ScrollSpec reports. */
  lemma FailsAt(pages: seq<PageOutcome>, querySize: int, queryMaxSize: int, k: nat)
    requires 2 <= k <= |pages| + 1 && PageAt(pages, k).Failure?
    requires PageAt(pages, 1).Page?
    requires forall p :: 1 <= p < k ==> PageAt(pages, p).Page?
    requires forall p :: 1 <= p < k ==> !Reaches(p, querySize, Cap(PageAt(pages, 1).totalHits, queryMaxSize))
    ensures ScrollSpec(pages, querySize, queryMaxSize) == ScrollFailed(k, PageAt(pages, k).error)
  {
    var count := Cap(PageAt(pages, 1).totalHits, queryMaxSize);
    match StopPage(count, querySize)
    case Some(n) =>
      FirstFailureAt(pages, 2, n, k);
    case None =>
      FirstFailureAt(pages, 2, |pages| + 1, k);
  }

  lemma StopsAt(pages: seq<PageOutcome>, querySize: int, queryMaxSize: int, page: nat)
    requires page >= 1 && PageAt(pages, 1).Page?
    requires forall p :: 1 <= p <= page ==> PageAt(pages, p).Page?
    requires var count := Cap(PageAt(pages, 1).totalHits, queryMaxSize);
      && Reaches(page, querySize, count)
      && forall p :: 1 <= p < page ==> !Reaches(p, querySize, count)
    ensures ScrollSpec(pages, querySize, queryMaxSize)
      == Found(Truncate(Fetched(pages, page), Cap(PageAt(pages, 1).totalHits, queryMaxSize)))
  {
    var count := Cap(PageAt(pages, 1).totalHits, queryMaxSize);
    StopPageAt(count, querySize, page);
  }

  lemma {:induction false} FetchedFull(pages: seq<PageOutcome>, n: nat, querySize: nat)
    requires forall p :: 1 <= p <= n ==> PageAt(pages, p).Page? && |PageAt(pages, p).hits| == querySize
    ensures |Fetched(pages, n)| == n * querySize
  {
    if n > 0 {
      FetchedFull(pages, n - 1, querySize);
      assert n * querySize == (n - 1) * querySize + querySize;
    }
  }

  /**
   * When QuerySize is positive and the pages up to the stop page all
   * succeed, the result is their hits in page order, cut to the wanted
   * count: exactly the count when enough hits were fetched, all of them when
   * a short page left fewer.
   */
  lemma ScrollFoundSize(pages: seq<PageOutcome>, querySize: int, queryMaxSize: int)
    requires querySize > 0 && PageAt(pages, 1).Page?
    requires var n := PagesNeeded(Cap(PageAt(pages, 1).totalHits, queryMaxSize), querySize);
      forall p :: 1 <= p <= n ==> PageAt(pages, p).Page?
    ensures var count := Cap(PageAt(pages, 1).totalHits, queryMaxSize);
      var n := PagesNeeded(count, querySize);
      var r := ScrollSpec(pages, querySize, queryMaxSize);
      r == Found(Truncate(Fetched(pages, n), count)) && |r.samples| == Min(|Fetched(pages, n)|, count)
  {
    var count := Cap(PageAt(pages, 1).totalHits, queryMaxSize);
    StopsAt(pages, querySize, queryMaxSize, PagesNeeded(count, querySize));
  }

  /**
   * When QuerySize is positive and every page fetched is full, the result
   * holds exactly the wanted count of documents: the hits of the first
   * pages, in page order.
   */
  lemma FullPagesGiveCount(pages: seq<PageOutcome>, querySize: int, queryMaxSize: int)
    requires querySize > 0 && PageAt(pages, 1).Page?
    requires var n := PagesNeeded(Cap(PageAt(pages, 1).totalHits, queryMaxSize), querySize);
      forall p :: 1 <= p <= n ==> PageAt(pages, p).Page? && |PageAt(pages, p).hits| == querySize
    ensures var count := Cap(PageAt(pages, 1).totalHits, queryMaxSize);
      var n := PagesNeeded(count, querySize);
      var r := ScrollSpec(pages, querySize, queryMaxSize);
      r == Found(Truncate(Fetched(pages, n), count)) && |r.samples| == count
  {
    var count := Cap(PageAt(pages, 1).totalHits, queryMaxSize);
    var n := PagesNeeded(count, querySize);
    FetchedFull(pages, n, querySize);
    ScrollFoundSize(pages, querySize, queryMaxSize);
  }
}
