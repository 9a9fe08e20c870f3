/** Crawling a paginated list endpoint. Models `src/client/paging.rs`. */
module Paging {
  import opened Wrappers
  import opened Text

  // ---------------------------------------------------------------------------------------
  // The `offset` parameter of a page URL
  // ---------------------------------------------------------------------------------------

  const U64_MAX := 0xffff_ffff_ffff_ffff

  /** The parts before and after the first `c`. */
  function SplitOnce(s: string, c: char): Option<(string, string)> {
    match IndexOf(s, c)
    case None => None
    case Some(i) => Some((s[..i], s[i + 1..]))
  }

  /** The number one pair of a query gives for `offset`, if it gives one. */
  function OffsetIn(pair: string): Option<nat> {
    match SplitOnce(pair, '=')
    case None => None
    case Some((key, value)) => if key == "offset" then ParseNat(value, U64_MAX) else None
  }

  function FirstOffset(pairs: seq<string>): Option<nat> {
    if pairs == [] then None
    else if OffsetIn(pairs[0]).Some? then OffsetIn(pairs[0])
    else FirstOffset(pairs[1..])
  }

  /** The pairs of a URL's query; none when it has no query. */
  function QueryPairs(url: string): seq<string> {
    match SplitOnce(url, '?')
    case None => []
    case Some((_, query)) => Split(query, '&')
  }

  function BaseOf(url: string): string {
    match SplitOnce(url, '?')
    case None => url
    case Some((base, _)) => base
  }

  /** The `offset` of a page URL, zero when it gives none. */
  function OffsetOf(url: string): nat {
    FirstOffset(QueryPairs(url)).GetOr(0)
  }

  predicate WritesOffset(pair: string) {
    "offset=" <= pair
  }

  /** The pairs that do not write an offset, in order. */
  function OtherPairs(pairs: seq<string>): (r: seq<string>)
    ensures forall p :: p in r <==> p in pairs && !WritesOffset(p)
  {
    if pairs == [] then []
    else (if WritesOffset(pairs[0]) then [] else [pairs[0]]) + OtherPairs(pairs[1..])
  }

  /** The URL with its offset replaced, or added in front of the other parameters. */
  function WithOffset(url: string, offset: nat): string {
    BaseOf(url) + ['?'] + Join(["offset=" + Numeral(offset)] + OtherPairs(QueryPairs(url)), '&')
  }

  lemma OffsetPair(n: nat)
    ensures '&' !in "offset=" + Numeral(n) && WritesOffset("offset=" + Numeral(n))
    ensures n <= U64_MAX ==> OffsetIn("offset=" + Numeral(n)) == Some(n)
  {
    var pair := "offset" + ['='] + Numeral(n);
    assert "offset=" + Numeral(n) == pair;
    NumeralHasDigits(n);
    IndexOfAfter("offset", Numeral(n), '=');
    assert pair[..6] == "offset" && pair[7..] == Numeral(n);
    if n <= U64_MAX {
      ParseNumeral(n, U64_MAX);
    }
  }

  lemma NumeralHasDigits(n: nat)
    ensures '&' !in Numeral(n)
  {
    forall c | c in Numeral(n)
      ensures c != '&'
    {
      var k :| 0 <= k < |Numeral(n)| && Numeral(n)[k] == c;
      assert IsDigit(Numeral(n)[k]);
    }
  }

  /**
   * Replacing the offset of a URL keeps its base and every other parameter in order, and puts
   * exactly one offset in front of them.
   */
  lemma OtherFiltersSurvive(url: string, n: nat)
    ensures BaseOf(WithOffset(url, n)) == BaseOf(url)
    ensures QueryPairs(WithOffset(url, n)) == ["offset=" + Numeral(n)] + OtherPairs(QueryPairs(url))
  {
    hide Numeral, WritesOffset;
    var pairs := ["offset=" + Numeral(n)] + OtherPairs(QueryPairs(url));
    OffsetPair(n);
    if SplitOnce(url, '?').Some? {
      JoinSplit(SplitOnce(url, '?').value.1, '&');
    }
    SplitJoin(pairs, '&');
    var (base, query) := (BaseOf(url), Join(pairs, '&'));
    IndexOfAfter(base, query, '?');
    var u := base + ['?'] + query;
    assert u[..|base|] == base && u[|base| + 1..] == query;
  }

  /** The offset written is the offset read. */
  lemma OffsetRoundTrip(url: string, n: nat)
    requires n <= U64_MAX
    ensures OffsetOf(WithOffset(url, n)) == n
  {
    hide Numeral, OffsetIn;
    OtherFiltersSurvive(url, n);
    OffsetPair(n);
  }

  // ---------------------------------------------------------------------------------------
  // One crawl, as values
  // ---------------------------------------------------------------------------------------

  /** What a peer answers a request with. */
  datatype Response<+T> = Page(items: seq<T>, total: Option<nat>, next: Option<string>) | Refused

  /** How a crawl goes on after a page. */
  datatype CrawlAdjustment = Continue | RefetchAt(offset: nat)

  /** A total that shrank asks for the page again, one object earlier. */
  function Adjust(previousTotal: Option<nat>, newTotal: Option<nat>, offset: nat): CrawlAdjustment {
    if previousTotal.Some? && newTotal.Some? && newTotal.value < previousTotal.value && offset > 0
    then RefetchAt(offset - 1)
    else Continue
  }

  datatype CrawlError = TooManyPages | PageFailed

  /** The state of a crawl; `requests` counts what was sent to the peer. */
  datatype Crawl<+T> = Crawl(
    next: Option<string>,
    buffer: seq<T>,
    lastTotal: Option<nat>,
    pages: nat,
    seen: nat,
    corrections: nat,
    requests: nat
  )

  function Start<T>(first: string): Crawl<T> {
    Crawl(Some(first), [], None, 0, 0, 0, 0)
  }

  /** The crawl after the page at `url` arrived. */
  function Received<T>(c: Crawl<T>, url: string, page: Response<T>): Crawl<T>
    requires page.Page?
  {
    var taken := c.(next := None, pages := c.pages + 1, requests := c.requests + 1, lastTotal := page.total);
    match Adjust(c.lastTotal, page.total, OffsetOf(url))
    case RefetchAt(offset) => taken.(corrections := c.corrections + 1, next := Some(WithOffset(url, offset)))
    case Continue => taken.(buffer := c.buffer + page.items, next := page.next)
  }

  /** One call for the next object: the state after it, and the object, the end, or an error. */
  function NextOf<T>(peer: (nat, string) -> Response<T>, maxPages: nat, c: Crawl<T>)
    : (Crawl<T>, Result<Option<T>, CrawlError>)
    decreases if c.pages <= maxPages then maxPages - c.pages else 0
  {
    if c.buffer != [] then (c.(buffer := c.buffer[1..], seen := c.seen + 1), Ok(Some(c.buffer[0])))
    else if c.next.None? then (c, Ok(None))
    else if c.pages >= maxPages then (c.(next := None), Err(TooManyPages))
    else
      var page := peer(c.requests, c.next.value);
      if page.Refused? then (c.(next := None, requests := c.requests + 1), Err(PageFailed))
      else NextOf(peer, maxPages, Received(c, c.next.value, page))
  }

  /** What is left of a crawl: pages that may be fetched, then objects in the buffer. */
  lemma {:induction false} NextUsesUp<T>(peer: (nat, string) -> Response<T>, maxPages: nat, c: Crawl<T>)
    requires c.pages <= maxPages
    ensures var (after, r) := NextOf(peer, maxPages, c);
            && c.pages <= after.pages <= maxPages
            && (r.Ok? && r.value.Some? ==>
                  after.seen == c.seen + 1
                  && (after.pages > c.pages || |after.buffer| < |c.buffer|))
    decreases maxPages - c.pages
  {
    hide WithOffset, OffsetOf;
    if c.buffer == [] && c.next.Some? && c.pages < maxPages {
      var page := peer(c.requests, c.next.value);
      if page.Page? {
        NextUsesUp(peer, maxPages, Received(c, c.next.value, page));
      }
    }
  }

  /** The whole list, and the state it leaves. */
  function CollectOf<T>(peer: (nat, string) -> Response<T>, maxPages: nat, c: Crawl<T>)
    : (Crawl<T>, Result<seq<T>, CrawlError>)
    requires c.pages <= maxPages
    decreases maxPages - c.pages, |c.buffer|
  {
    NextUsesUp(peer, maxPages, c);
    var (after, r) := NextOf(peer, maxPages, c);
    match r
    case Err(e) => (after, Err(e))
    case Ok(None) => (after, Ok([]))
    case Ok(Some(item)) =>
      var (last, rest) := CollectOf(peer, maxPages, after);
      (last, match rest case Err(e) => Err(e) case Ok(items) => Ok([item] + items))
  }

  /** One call sends at most one request more than the pages it gets. */
  lemma {:induction false} NextRequests<T>(peer: (nat, string) -> Response<T>, maxPages: nat, c: Crawl<T>)
    requires c.pages <= maxPages
    ensures var (after, r) := NextOf(peer, maxPages, c);
            after.requests - c.requests == after.pages - c.pages + if r == Err(PageFailed) then 1 else 0
    decreases maxPages - c.pages
  {
    hide WithOffset, OffsetOf;
    if c.buffer == [] && c.next.Some? && c.pages < maxPages {
      var page := peer(c.requests, c.next.value);
      if page.Page? {
        NextRequests(peer, maxPages, Received(c, c.next.value, page));
      }
    }
  }

  /**
   * Against any peer at all, one whose links lead nowhere or whose totals keep shrinking included,
   * a crawl ends after at most `maxPages` pages and one failed request, having counted exactly
   * what it hands out.
   */
  lemma {:induction false} CrawlEnds<T>(peer: (nat, string) -> Response<T>, maxPages: nat, c: Crawl<T>)
    requires c.pages <= maxPages
    ensures var (after, r) := CollectOf(peer, maxPages, c);
            && c.pages <= after.pages <= maxPages
            && after.requests - c.requests == after.pages - c.pages + (if r == Err(PageFailed) then 1 else 0)
            && (r.Ok? ==> after.seen == c.seen + |r.value|)
    decreases maxPages - c.pages, |c.buffer|
  {
    NextUsesUp(peer, maxPages, c);
    NextRequests(peer, maxPages, c);
    NothingSeenAtTheEnd(peer, maxPages, c);
    var (after, r) := NextOf(peer, maxPages, c);
    hide NextOf;
    if r.Ok? && r.value.Some? {
      CrawlEnds(peer, maxPages, after);
    }
  }

  lemma {:induction false} NothingSeenAtTheEnd<T>(peer: (nat, string) -> Response<T>, maxPages: nat, c: Crawl<T>)
    ensures var (after, r) := NextOf(peer, maxPages, c);
            r == Ok(None) ==> after.seen == c.seen
    decreases if c.pages <= maxPages then maxPages - c.pages else 0
  {
    hide WithOffset, OffsetOf;
    if c.buffer == [] && c.next.Some? && c.pages < maxPages {
      var page := peer(c.requests, c.next.value);
      if page.Page? {
        NothingSeenAtTheEnd(peer, maxPages, Received(c, c.next.value, page));
      }
    }
  }

  // ---------------------------------------------------------------------------------------
  // One crawl, as an object
  // ---------------------------------------------------------------------------------------

  class PageStream<T> {
    /** What the peer answers its n-th request with. */
    const peer: (nat, string) -> Response<T>
    const maxPages: nat
    var next: Option<string>
    var buffer: seq<T>
    var lastTotal: Option<nat>
    var pages: nat
    var seen: nat
    var corrections: nat
    var requests: nat

    constructor (peer: (nat, string) -> Response<T>, first: string, maxPages: nat)
      ensures this.peer == peer && this.maxPages == maxPages
      ensures State() == Start(first)
    {
      this.peer, this.maxPages := peer, maxPages;
      next, buffer, lastTotal := Some(first), [], None;
      pages, seen, corrections, requests := 0, 0, 0, 0;
    }

    function State(): Crawl<T>
      reads this
    {
      Crawl(next, buffer, lastTotal, pages, seen, corrections, requests)
    }

    /** Fetches the page at `url`, rewinding by one object when the total shrank. */
    method Fetch(url: string) returns (error: Option<CrawlError>)
      requires next == None
      modifies this
      ensures var page := peer(old(requests), url);
              if page.Refused? then
                error == Some(PageFailed) && State() == old(State()).(requests := old(requests) + 1)
              else
                error == None && State() == Received(old(State()), url, page)
    {
      hide OffsetOf, WithOffset;
      var offset := OffsetOf(url);
      var page := peer(requests, url);
      requests := requests + 1;
      if page.Refused? {
        return Some(PageFailed);
      }
      pages := pages + 1;
      match Adjust(lastTotal, page.total, offset) {
        case RefetchAt(newOffset) =>
          corrections := corrections + 1;
          lastTotal := page.total;
          next := Some(WithOffset(url, newOffset));
        case Continue =>
          lastTotal := page.total;
          buffer := buffer + page.items;
          next := page.next;
      }
      return None;
    }

    /** The next object, fetching pages while the buffer is empty. */
    method Next() returns (r: Result<Option<T>, CrawlError>)
      modifies this
      ensures (State(), r) == NextOf(peer, maxPages, old(State()))
    {
      hide Received;
      while true
        invariant NextOf(peer, maxPages, State()) == NextOf(peer, maxPages, old(State()))
        decreases if pages <= maxPages then maxPages - pages else 0
      {
        if buffer != [] {
          var item := buffer[0];
          buffer := buffer[1..];
          seen := seen + 1;
          return Ok(Some(item));
        }
        if next.None? {
          return Ok(None);
        }
        var url := next.value;
        ghost var before := State();
        next := None;
        if pages >= maxPages {
          return Err(TooManyPages);
        }
        PageCounts(before, url, peer(requests, url));
        var error := Fetch(url);
        if error.Some? {
          return Err(error.value);
        }
      }
    }

    /** Collects the whole list. */
    method CollectAll() returns (r: Result<seq<T>, CrawlError>)
      requires pages <= maxPages
      modifies this
      ensures (State(), r) == CollectOf(peer, maxPages, old(State()))
      ensures pages <= maxPages
    {
      var out: seq<T> := [];
      AfterNothing(CollectOf(peer, maxPages, State()));
      while true
        invariant pages <= maxPages
        invariant CollectOf(peer, maxPages, old(State())) == After(out, CollectOf(peer, maxPages, State()))
        decreases maxPages - pages, |buffer|
      {
        NextUsesUp(peer, maxPages, State());
        ghost var before := State();
        var item := Next();
        CollectStep(peer, maxPages, before, out);
        if item.Err? {
          return Err(item.error);
        }
        if item.value.None? {
          return Ok(out);
        }
        out := out + [item.value.value];
      }
    }
  }

  lemma PageCounts<T>(c: Crawl<T>, url: string, page: Response<T>)
    ensures page.Page? ==> Received(c, url, page).pages == c.pages + 1
    ensures page.Page? ==> Received(c.(next := None), url, page) == Received(c, url, page)
  {
  }

  /** A collected rest with what was collected before it. */
  function After<T>(out: seq<T>, rest: (Crawl<T>, Result<seq<T>, CrawlError>)): (Crawl<T>, Result<seq<T>, CrawlError>) {
    (rest.0, match rest.1 case Err(e) => Err(e) case Ok(items) => Ok(out + items))
  }

  lemma AfterNothing<T>(rest: (Crawl<T>, Result<seq<T>, CrawlError>))
    ensures After([], rest) == rest
  {
    if rest.1.Ok? {
      assert [] + rest.1.value == rest.1.value;
    }
  }

  lemma CollectStep<T>(peer: (nat, string) -> Response<T>, maxPages: nat, c: Crawl<T>, out: seq<T>)
    requires c.pages <= maxPages
    ensures var (after, r) := NextOf(peer, maxPages, c);
            && after.pages <= maxPages
            && After(out, CollectOf(peer, maxPages, c))
               == match r
                  case Err(e) => (after, Err(e))
                  case Ok(None) => (after, Ok(out))
                  case Ok(Some(item)) => After(out + [item], CollectOf(peer, maxPages, after))
  {
    hide NextOf;
    NextUsesUp(peer, maxPages, c);
    var (after, r) := NextOf(peer, maxPages, c);
    assert out + [] == out;
    if r.Ok? && r.value.Some? {
      var rest := CollectOf(peer, maxPages, after).1;
      if rest.Ok? {
        assert out + ([r.value.value] + rest.value) == out + [r.value.value] + rest.value;
      }
    }
  }
}
