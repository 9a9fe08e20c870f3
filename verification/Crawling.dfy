/**
 * A crawl against a list that changes between its requests: nothing is missed, and each
 * correction repeats at most one object.
 */
module Crawling {
  import opened Wrappers
  import opened Paging

  // ---------------------------------------------------------------------------------------
  // The server
  // ---------------------------------------------------------------------------------------

  /** The page of `list` at `offset`, of whatever size, with a link unless it is the last. */
  ghost predicate PageOf<T>(r: Response<T>, list: seq<T>, offset: nat) {
    var start := if offset < |list| then offset else |list|;
    && r.Page?
    && r.total == Some(|list|)
    && start + |r.items| <= |list|
    && r.items == list[start..start + |r.items|]
    && (if start + |r.items| == |list| then r.next == None
        else r.next.Some? && OffsetOf(r.next.value) == start + |r.items|)
  }

  /** A peer that answers its n-th request from the list as it then is, or refuses it. */
  ghost predicate Serves<T(!new)>(peer: (nat, string) -> Response<T>, lists: nat -> seq<T>) {
    forall n: nat, url: string :: peer(n, url).Refused? || PageOf(peer(n, url), lists(n), OffsetOf(url))
  }

  predicate Appends<T(==)>(a: seq<T>, b: seq<T>) {
    a <= b
  }

  predicate RemovesAt<T(==)>(a: seq<T>, b: seq<T>, j: nat) {
    j < |a| && b == a[..j] + a[j + 1..]
  }

  /** Between two requests the list grows at its end, or loses exactly one object. */
  ghost predicate Steps<T>(a: seq<T>, b: seq<T>) {
    Appends(a, b) || exists j: nat :: RemovesAt(a, b, j)
  }

  predicate Distinct<T(==)>(list: seq<T>) {
    forall i, j :: 0 <= i < j < |list| ==> list[i] != list[j]
  }

  /** The list as the crawl last saw it, after `n` requests. */
  function LastSeen<T>(lists: nat -> seq<T>, n: nat): seq<T> {
    if n == 0 then [] else lists(n - 1)
  }

  /** A list that changes by single steps; an object that left it may be listed again. */
  ghost predicate Evolves<T>(lists: nat -> seq<T>) {
    forall n: nat :: Steps(LastSeen(lists, n), lists(n))
  }

  /** No object is listed twice at once. */
  ghost predicate AllDistinct<T>(lists: nat -> seq<T>) {
    forall n: nat :: Distinct(LastSeen(lists, n))
  }

  // ---------------------------------------------------------------------------------------
  // The invariant
  // ---------------------------------------------------------------------------------------

  function Elements<T>(s: seq<T>): set<T> {
    set x | x in s
  }

  /** Where in the list the crawl goes on. */
  function Position<T>(lists: nat -> seq<T>, c: Crawl<T>): nat {
    if c.next.Some? then OffsetOf(c.next.value) else |LastSeen(lists, c.requests)|
  }

  /** Everything before a position of the list was delivered. */
  predicate Covered<T(==)>(list: seq<T>, position: nat, delivered: seq<T>) {
    position <= |list| && forall i :: 0 <= i < position ==> list[i] in delivered
  }

  /** How many of the objects `d` lie ahead of a position or are not listed any more. */
  function Outstanding<T>(list: seq<T>, position: nat, d: set<T>): nat
    requires position <= |list|
  {
    |d * Elements(list[position..])| + |d - Elements(list)|
  }

  /**
   * What was delivered twice is within the number of corrections, even if everything delivered
   * that lies ahead, or that left the list and may come back at its end, is delivered once more.
   */
  predicate Balanced<T(==)>(list: seq<T>, position: nat, delivered: seq<T>, corrections: nat)
    requires position <= |list|
  {
    |delivered| + Outstanding(list, position, Elements(delivered)) <= |Elements(delivered)| + corrections
  }

  /**
   * Of the list as last seen, everything before the crawl's position was delivered; and when no
   * object is listed twice at once, what was delivered twice is within the number of corrections.
   */
  ghost predicate OnTrack<T>(lists: nat -> seq<T>, c: Crawl<T>, delivered: seq<T>) {
    var (list, position) := (LastSeen(lists, c.requests), Position(lists, c));
    && c.lastTotal == (if c.requests == 0 then None else Some(|list|))
    && Covered(list, position, delivered)
    && (AllDistinct(lists) ==> Balanced(list, position, delivered, c.corrections))
  }

  /** Whether `x` was in the list at every one of `n` requests, and there was one. */
  ghost predicate Lasting<T>(lists: nat -> seq<T>, n: nat, x: T) {
    n > 0 && forall m: nat :: m < n ==> x in lists(m)
  }

  lemma DistinctElements<T>(s: seq<T>)
    requires Distinct(s)
    ensures |Elements(s)| == |s|
  {
    if s == [] {
    } else {
      var n := |s| - 1;
      assert s == s[..n] + [s[n]];
      DistinctElements(s[..n]);
      assert Elements(s) == Elements(s[..n]) + {s[n]};
      assert s[n] !in Elements(s[..n]);
    }
  }

  lemma UnionSize<T>(a: set<T>, b: set<T>)
    ensures |a + b| == |a| + |b| - |a * b|
  {
    assert a + b == a + (b - a);
    assert b == (b - a) + (a * b);
  }

  /** Taking `i` from ahead keeps the balance, when nothing of it stays ahead. */
  lemma TakeFromAhead<T>(a: set<T>, i: set<T>, b: set<T>)
    requires i * b == {}
    ensures |i| + |(a + i) * b| + |a| == |a + i| + |a * (i + b)|
  {
    UnionSize(a, i);
    assert a * (i + b) == a * i + a * b;
    UnionSize(a * i, a * b);
    assert (a * i) * (a * b) == a * (i * b);
    assert (a + i) * b == a * b;
  }

  lemma Apart<T>(list: seq<T>, start: nat, end: nat)
    requires start <= end <= |list| && Distinct(list)
    ensures Elements(list[start..end]) * Elements(list[end..]) == {}
    ensures Elements(list[start..]) == Elements(list[start..end]) + Elements(list[end..])
    ensures |Elements(list[start..end])| == end - start
  {
    var (items, rest) := (list[start..end], list[end..]);
    assert list[start..] == items + rest;
    forall x | x in items
      ensures x !in rest
    {
      var k :| 0 <= k < |items| && items[k] == x;
      assert list[start + k] == x;
      assert forall m :: 0 <= m < |rest| ==> rest[m] == list[end + m];
    }
    DistinctElements(items);
  }

  /** Delivering the items of a distinct list keeps the balance of repeats. */
  lemma DeliverItems<T>(delivered: seq<T>, list: seq<T>, start: nat, end: nat, corrections: nat)
    requires start <= end <= |list| && Distinct(list)
    requires Balanced(list, start, delivered, corrections)
    ensures Balanced(list, end, delivered + list[start..end], corrections)
  {
    Apart(list, start, end);
    hide Distinct;
    var (d, items) := (Elements(delivered), Elements(list[start..end]));
    assert Elements(delivered + list[start..end]) == d + items;
    assert items <= Elements(list);
    hide Elements;
    assert (d + items) - Elements(list) == d - Elements(list);
    TakeFromAhead(d, items, Elements(list[end..]));
  }

  /** What is appended to a distinct list moves from the objects not listed to those ahead. */
  lemma AppendKeeps<T>(before: seq<T>, list: seq<T>, position: nat, d: set<T>)
    requires Appends(before, list) && position <= |before| && Distinct(list)
    ensures Outstanding(list, position, d) <= Outstanding(before, position, d)
  {
    var n := |before|;
    Apart(list, position, n);
    Apart(list, 0, n);
    assert list[0..n] == before && list[0..] == list && list[position..n] == before[position..];
    hide Elements, Distinct;
    MoveAhead(d, Elements(before), Elements(before[position..]), Elements(list[n..]));
  }

  /** Objects outside `b` that are added to it and to what lies ahead. */
  lemma MoveAhead<T>(d: set<T>, b: set<T>, ahead: set<T>, added: set<T>)
    requires b * added == {}
    ensures |d * (ahead + added)| + |d - (b + added)| <= |d * ahead| + |d - b|
  {
    assert d * (ahead + added) == d * ahead + d * added;
    UnionSize(d * ahead, d * added);
    assert d - b == (d - (b + added)) + d * added;
    UnionSize(d - (b + added), d * added);
    assert (d - (b + added)) * (d * added) == {};
  }

  /** The objects of a distinct list, and those from a position on, after one of them is removed. */
  lemma RemovedFrom<T>(before: seq<T>, list: seq<T>, j: nat, position: nat)
    requires RemovesAt(before, list, j) && 0 < position <= |before| && Distinct(before)
    ensures before[j] !in Elements(list) && Elements(before) == Elements(list) + {before[j]}
    ensures j < position ==> list[position - 1..] == before[position..]
    ensures j >= position ==> before[j] in Elements(before[position..])
    ensures j >= position ==> Elements(list[position - 1..])
                              == Elements(before[position..]) - {before[j]} + {before[position - 1]}
  {
    var (gone, after) := (before[j], before[j + 1..]);
    assert before == before[..j] + [gone] + after;
    assert gone !in before[..j];
    assert gone !in after by {
      assert forall i :: 0 <= i < |after| ==> after[i] == before[j + 1 + i];
    }
    if j >= position {
      var middle := before[position..j];
      assert before[position..] == middle + [gone] + after;
      assert list[position - 1..] == [before[position - 1]] + middle + after;
      assert forall i :: 0 <= i < |middle| ==> middle[i] == before[position + i];
      assert gone !in middle;
    }
  }

  /** Taking `gone` out of a set and adding one object more. */
  lemma SwapOne<T>(d: set<T>, ahead: set<T>, gone: set<T>, extra: T)
    requires gone <= ahead
    ensures |d * (ahead - gone + {extra})| + |d * gone| <= |d * ahead| + 1
  {
    var stay := ahead - gone;
    assert d * (stay + {extra}) <= d * stay + {extra};
    SubsetSize(d * (stay + {extra}), d * stay + {extra});
    UnionSize(d * stay, {extra});
    assert d * ahead == d * stay + d * gone;
    UnionSize(d * stay, d * gone);
    assert (d * stay) * (d * gone) == {};
  }

  /** One object fewer, and a position one earlier: at most one object more is outstanding. */
  lemma RemovalKeeps<T>(before: seq<T>, list: seq<T>, j: nat, position: nat, d: set<T>)
    requires RemovesAt(before, list, j) && 0 < position <= |before| && Distinct(before)
    ensures Outstanding(list, position - 1, d) <= Outstanding(before, position, d) + 1
  {
    RemovedFrom(before, list, j, position);
    hide Elements, Distinct;
    var (gone, all) := ({before[j]}, Elements(list));
    assert d - all == (d - (all + gone)) + d * gone;
    UnionSize(d - (all + gone), d * gone);
    if j < position {
      SubsetSize(d * gone, gone);
    } else {
      SwapOne(d, Elements(before[position..]), gone, before[position - 1]);
    }
  }

  lemma SubsetSize<T>(a: set<T>, b: set<T>)
    requires a <= b
    ensures |a| <= |b|
  {
    assert b == a + (b - a);
  }

  /** At the start of a list every delivered object is outstanding. */
  lemma AllOutstanding<T>(list: seq<T>, d: set<T>)
    ensures Outstanding(list, 0, d) == |d|
  {
    assert list[0..] == list;
    hide Elements;
    assert d == d * Elements(list) + (d - Elements(list));
    UnionSize(d * Elements(list), d - Elements(list));
  }

  // ---------------------------------------------------------------------------------------
  // One page
  // ---------------------------------------------------------------------------------------

  /** When the list grew, position and balance are what they were. */
  lemma Grown<T>(before: seq<T>, list: seq<T>, position: nat, delivered: seq<T>, corrections: nat)
    requires Appends(before, list) && Covered(before, position, delivered)
    ensures Covered(list, position, delivered)
    ensures Distinct(list) && Balanced(before, position, delivered, corrections)
            ==> Balanced(list, position, delivered, corrections)
  {
    hide Distinct, Outstanding;
    if Distinct(list) {
      AppendKeeps(before, list, position, Elements(delivered));
    }
  }

  /** When the list lost an object before the crawl got anywhere, it starts over. */
  lemma LostAtStart<T>(before: seq<T>, list: seq<T>, delivered: seq<T>, corrections: nat)
    ensures Covered(list, 0, delivered)
    ensures Balanced(before, 0, delivered, corrections) ==> Balanced(list, 0, delivered, corrections)
  {
    AllOutstanding(before, Elements(delivered));
    AllOutstanding(list, Elements(delivered));
  }

  lemma CoveredToEnd<T>(list: seq<T>, position: nat, end: nat, delivered: seq<T>)
    requires Covered(list, position, delivered) && position <= end <= |list|
    ensures Covered(list, end, delivered + list[position..end])
  {
    forall i | 0 <= i < end
      ensures list[i] in delivered + list[position..end]
    {
      if i >= position {
        assert list[position..end][i - position] == list[i];
      }
    }
  }

  lemma EvolvesAt<T>(lists: nat -> seq<T>, n: nat)
    requires Evolves(lists)
    ensures Steps(LastSeen(lists, n), lists(n))
    ensures AllDistinct(lists) ==> Distinct(LastSeen(lists, n)) && Distinct(lists(n))
  {
    hide Distinct, Steps;
    assert LastSeen(lists, n + 1) == lists(n);
  }

  /** What a page says about where the crawl goes on. */
  lemma PageEnds<T>(page: Response<T>, list: seq<T>, position: nat)
    requires PageOf(page, list, position) && position <= |list|
    ensures page.total == Some(|list|) && position + |page.items| <= |list|
    ensures page.items == list[position..position + |page.items|]
    ensures if page.next.None? then position + |page.items| == |list|
            else OffsetOf(page.next.value) == position + |page.items|
  {
    hide OffsetOf;
  }

  /** A page that is taken: the list grew, or the crawl was at its start. */
  lemma TakenPage<T>(lists: nat -> seq<T>, c: Crawl<T>, url: string, page: Response<T>, delivered: seq<T>)
    requires Evolves(lists) && OnTrack(lists, c, delivered) && c.next == Some(url)
    requires PageOf(page, lists(c.requests), OffsetOf(url)) && page.Page?
    requires Adjust(c.lastTotal, page.total, OffsetOf(url)).Continue?
    ensures OnTrack(lists, Received(c, url, page), delivered + page.items)
  {
    hide OffsetOf, WithOffset, Elements, Covered, Balanced, Steps, Evolves, AllDistinct, PageOf, Distinct, Appends;
    var (before, list, position) := (LastSeen(lists, c.requests), lists(c.requests), OffsetOf(url));
    EvolvesAt(lists, c.requests);
    PageTotal(page, list, position);
    if Appends(before, list) {
      Grown(before, list, position, delivered, c.corrections);
    } else {
      CoveredBound(before, position, delivered);
      Shrunk(before, list);
      assert position == 0;
      LostAtStart(before, list, delivered, c.corrections);
    }
    CoveredBound(list, position, delivered);
    PageEnds(page, list, position);
    var end := position + |page.items|;
    if AllDistinct(lists) {
      DeliverItems(delivered, list, position, end, c.corrections);
    }
    CoveredToEnd(list, position, end, delivered);
  }

  lemma PageTotal<T>(page: Response<T>, list: seq<T>, position: nat)
    requires PageOf(page, list, position)
    ensures page.Page? && page.total == Some(|list|)
  {
  }

  lemma Shrunk<T>(before: seq<T>, list: seq<T>)
    requires Steps(before, list) && !Appends(before, list)
    ensures |list| == |before| - 1
  {
  }

  lemma CoveredBound<T>(list: seq<T>, position: nat, delivered: seq<T>)
    requires Covered(list, position, delivered)
    ensures position <= |list|
  {
  }

  /** When the list lost an object, the crawl goes back by one. */
  lemma Lost<T>(before: seq<T>, list: seq<T>, position: nat, delivered: seq<T>, corrections: nat)
    requires Steps(before, list) && |list| < |before| && position > 0
    requires Covered(before, position, delivered)
    ensures Covered(list, position - 1, delivered)
    ensures Distinct(before) && Balanced(before, position, delivered, corrections)
            ==> Balanced(list, position - 1, delivered, corrections + 1)
  {
    var j: nat :| RemovesAt(before, list, j);
    forall i | 0 <= i < position - 1
      ensures list[i] in delivered
    {
      assert list[i] == before[if i < j then i else i + 1];
    }
    hide Distinct, Outstanding;
    if Distinct(before) {
      RemovalKeeps(before, list, j, position, Elements(delivered));
    }
  }

  /** A page that is asked for again, one object earlier: the list lost one object. */
  lemma RefetchedPage<T>(lists: nat -> seq<T>, c: Crawl<T>, url: string, page: Response<T>, delivered: seq<T>)
    requires Evolves(lists) && OnTrack(lists, c, delivered) && c.next == Some(url)
    requires PageOf(page, lists(c.requests), OffsetOf(url)) && OffsetOf(url) <= U64_MAX
    requires Adjust(c.lastTotal, page.total, OffsetOf(url)).RefetchAt?
    ensures OnTrack(lists, Received(c, url, page), delivered)
  {
    hide OffsetOf, WithOffset, Elements, Covered, Balanced, Steps, Evolves, AllDistinct, PageOf, Distinct;
    var (before, list, position) := (LastSeen(lists, c.requests), lists(c.requests), OffsetOf(url));
    EvolvesAt(lists, c.requests);
    PageTotal(page, list, position);
    OffsetRoundTrip(url, position - 1);
    Lost(before, list, position, delivered, c.corrections);
  }

  lemma {:induction false} OffsetFits(pairs: seq<string>)
    ensures FirstOffset(pairs).Some? ==> FirstOffset(pairs).value <= U64_MAX
  {
    if pairs == [] {
    } else {
      OffsetFits(pairs[1..]);
    }
  }

  lemma OffsetIsU64(url: string)
    ensures OffsetOf(url) <= U64_MAX
  {
    OffsetFits(QueryPairs(url));
  }

  /** Whatever the page, the crawl stays on track. */
  lemma PageKeepsTrack<T>(lists: nat -> seq<T>, c: Crawl<T>, url: string, page: Response<T>, yielded: seq<T>)
    requires Evolves(lists) && OnTrack(lists, c, yielded + c.buffer) && c.next == Some(url)
    requires PageOf(page, lists(c.requests), OffsetOf(url)) && page.Page?
    ensures OnTrack(lists, Received(c, url, page), yielded + Received(c, url, page).buffer)
  {
    hide OnTrack, Evolves, WithOffset, OffsetOf, PageOf;
    OffsetIsU64(url);
    PageTotal(page, lists(c.requests), OffsetOf(url));
    if Adjust(c.lastTotal, page.total, OffsetOf(url)).Continue? {
      TakenPage(lists, c, url, page, yielded + c.buffer);
      assert yielded + c.buffer + page.items == yielded + (c.buffer + page.items);
    } else {
      RefetchedPage(lists, c, url, page, yielded + c.buffer);
    }
  }

  // ---------------------------------------------------------------------------------------
  // The whole crawl
  // ---------------------------------------------------------------------------------------

  lemma {:induction false} NextKeepsTrack<T(!new)>(
    peer: (nat, string) -> Response<T>, lists: nat -> seq<T>, maxPages: nat, c: Crawl<T>, yielded: seq<T>)
    requires Serves(peer, lists) && Evolves(lists) && OnTrack(lists, c, yielded + c.buffer)
    ensures var (after, r) := NextOf(peer, maxPages, c);
            && (r.Ok? && r.value.Some? ==> OnTrack(lists, after, yielded + [r.value.value] + after.buffer))
            && (r.Ok? && r.value.None? ==> OnTrack(lists, after, yielded) && after.next.None?)
    decreases if c.pages <= maxPages then maxPages - c.pages else 0
  {
    hide OffsetOf, WithOffset, PageOf, Evolves;
    if c.buffer != [] {
      Yielded(lists, c, yielded);
    } else if c.next.None? {
      assert yielded + c.buffer == yielded;
    } else if c.pages < maxPages {
      var page := peer(c.requests, c.next.value);
      if page.Page? {
        hide OnTrack;
        PageKeepsTrack(lists, c, c.next.value, page, yielded);
        NextKeepsTrack(peer, lists, maxPages, Received(c, c.next.value, page), yielded);
      }
    }
  }

  /** Handing out the first object of the buffer delivers nothing new. */
  lemma Yielded<T>(lists: nat -> seq<T>, c: Crawl<T>, yielded: seq<T>)
    requires c.buffer != [] && OnTrack(lists, c, yielded + c.buffer)
    ensures var after := c.(buffer := c.buffer[1..], seen := c.seen + 1);
            OnTrack(lists, after, yielded + [c.buffer[0]] + after.buffer)
  {
    hide OffsetOf, Covered, Balanced, AllDistinct;
    assert yielded + [c.buffer[0]] + c.buffer[1..] == yielded + c.buffer;
  }

  lemma {:induction false} CollectKeepsTrack<T(!new)>(
    peer: (nat, string) -> Response<T>, lists: nat -> seq<T>, maxPages: nat, c: Crawl<T>, yielded: seq<T>)
    requires Serves(peer, lists) && Evolves(lists) && OnTrack(lists, c, yielded + c.buffer) && c.pages <= maxPages
    ensures var (after, r) := CollectOf(peer, maxPages, c);
            r.Ok? ==> OnTrack(lists, after, yielded + r.value) && after.next.None?
    decreases maxPages - c.pages, |c.buffer|
  {
    hide OnTrack, Evolves, Serves, NextOf;
    NextUsesUp(peer, maxPages, c);
    NextKeepsTrack(peer, lists, maxPages, c, yielded);
    var (after, r) := NextOf(peer, maxPages, c);
    if r.Ok? {
      if r.value.Some? {
        CollectKeepsTrack(peer, lists, maxPages, after, yielded + [r.value.value]);
        var rest := CollectOf(peer, maxPages, after).1;
        if rest.Ok? {
          assert yielded + [r.value.value] + rest.value == yielded + ([r.value.value] + rest.value);
        }
      } else {
        assert yielded + [] == yielded;
      }
    }
  }

  /**
   * Crawl safety: if between any two requests the list only grows at its end or loses exactly one
   * object, a crawl from the start that ends has yielded every object of the list as it was at
   * the last request, so every object present for the whole crawl. And if no object is listed
   * twice at once, it has repeated no more objects than it made corrections.
   */
  lemma CrawlIsSafe<T(!new)>(peer: (nat, string) -> Response<T>, lists: nat -> seq<T>, maxPages: nat, first: string)
    requires Serves(peer, lists) && Evolves(lists) && OffsetOf(first) == 0
    ensures var (after, r) := CollectOf(peer, maxPages, Start(first));
            r.Ok? ==>
              && (forall x :: x in LastSeen(lists, after.requests) ==> x in r.value)
              && (forall x :: Lasting(lists, after.requests, x) ==> x in r.value)
              && (AllDistinct(lists) ==> |r.value| <= |Elements(r.value)| + after.corrections)
  {
    hide OffsetOf, Evolves, AllDistinct, Serves, CollectOf;
    var start := Start<T>(first);
    assert [] + start.buffer == [];
    assert OnTrack(lists, start, []) by {
      assert Elements<T>([]) == {};
    }
    CollectKeepsTrack(peer, lists, maxPages, start, []);
    var (after, r) := CollectOf(peer, maxPages, start);
    if r.Ok? {
      assert [] + r.value == r.value;
      forall x | x in LastSeen(lists, after.requests)
        ensures x in r.value
      {
        var list := LastSeen(lists, after.requests);
        var i :| 0 <= i < |list| && list[i] == x;
      }
    }
  }

  // ---------------------------------------------------------------------------------------
  // A server that pages through a list
  // ---------------------------------------------------------------------------------------

  /** At most `limit` objects from an offset on, with a link while there are more. */
  function PageAt<T>(list: seq<T>, url: string, limit: nat): Response<T> {
    var offset := OffsetOf(url);
    var start := if offset < |list| then offset else |list|;
    var end := if start + limit < |list| then start + limit else |list|;
    Page(list[start..end], Some(|list|), if end < |list| then Some(WithOffset(url, end)) else None)
  }

  function ServeList<T>(lists: nat -> seq<T>, limit: nat): (nat, string) -> Response<T> {
    (n: nat, url: string) => PageAt(lists(n), url, limit)
  }

  /** Such a server is one a crawl is safe against, whatever its limit. */
  lemma ListServerServes<T(!new)>(lists: nat -> seq<T>, limit: nat)
    requires forall n: nat :: |lists(n)| <= U64_MAX
    ensures Serves(ServeList(lists, limit), lists)
  {
    hide OffsetOf, WithOffset;
    var peer := ServeList(lists, limit);
    forall n: nat, url: string
      ensures PageOf(peer(n, url), lists(n), OffsetOf(url))
    {
      var list := lists(n);
      var start := if OffsetOf(url) < |list| then OffsetOf(url) else |list|;
      var end := if start + limit < |list| then start + limit else |list|;
      OffsetRoundTrip(url, end);
    }
  }

  /** A list that does not change is one a crawl is safe against. */
  lemma StillListEvolves<T>(list: seq<T>)
    ensures Evolves((n: nat) => list)
    ensures Distinct(list) ==> AllDistinct((n: nat) => list)
  {
    var lists := (n: nat) => list;
    assert forall n: nat :: Appends(LastSeen(lists, n), lists(n));
  }

  /** An object that is removed and added again at the end between two requests: the total stays. */
  function Moved(n: nat): seq<int> {
    if n == 0 then [1, 2, 3] else [2, 3, 1]
  }

  lemma MovedPages(first: string)
    requires OffsetOf(first) == 0
    ensures ServeList(Moved, 2)(0, first) == Page([1, 2], Some(3), Some(WithOffset(first, 2)))
    ensures ServeList(Moved, 2)(1, WithOffset(first, 2)) == Page([1], Some(3), None)
  {
    hide OffsetOf, WithOffset;
    OffsetRoundTrip(first, 2);
    PageOfThree(Moved(0), first);
    PageOfThree(Moved(1), WithOffset(first, 2));
    hide PageAt;
    assert ServeList(Moved, 2)(0, first) == PageAt(Moved(0), first, 2);
    assert ServeList(Moved, 2)(1, WithOffset(first, 2)) == PageAt(Moved(1), WithOffset(first, 2), 2);
  }

  lemma PageOfThree(list: seq<int>, url: string)
    requires |list| == 3
    ensures OffsetOf(url) == 0 ==> PageAt(list, url, 2) == Page([list[0], list[1]], Some(3), Some(WithOffset(url, 2)))
    ensures OffsetOf(url) == 2 ==> PageAt(list, url, 2) == Page([list[2]], Some(3), None)
  {
    hide OffsetOf, WithOffset;
    assert list[0..2] == [list[0], list[1]] && list[2..3] == [list[2]];
  }

  /** A call that fetches one page and hands out its first object. */
  lemma FetchThenYield<T>(peer: (nat, string) -> Response<T>, maxPages: nat, c: Crawl<T>, page: Response<T>)
    requires c.buffer == [] && c.next.Some? && c.pages < maxPages
    requires page == peer(c.requests, c.next.value) && page.Page?
    requires Received(c, c.next.value, page).buffer != []
    ensures var after := Received(c, c.next.value, page);
            NextOf(peer, maxPages, c)
            == (after.(buffer := after.buffer[1..], seen := after.seen + 1), Ok(Some(after.buffer[0])))
  {
    hide OffsetOf, WithOffset, Received;
  }

  lemma CollectOne<T>(peer: (nat, string) -> Response<T>, maxPages: nat, c: Crawl<T>, after: Crawl<T>, item: T)
    requires c.pages <= maxPages && NextOf(peer, maxPages, c) == (after, Ok(Some(item)))
    ensures after.pages <= maxPages
    ensures CollectOf(peer, maxPages, c) == After([item], CollectOf(peer, maxPages, after))
  {
    NextUsesUp(peer, maxPages, c);
    hide NextOf;
  }

  /**
   * The condition is needed: when one object moves to the end between two requests, an object that
   * was there all along is not yielded, and no correction is made.
   */
  lemma MovedObjectHidesAnother(first: string)
    requires OffsetOf(first) == 0
    ensures var (after, r) := CollectOf(ServeList(Moved, 2), 10, Start(first));
            && r == Ok([1, 2, 1]) && after.corrections == 0
            && forall n: nat :: 3 in Moved(n)
  {
    MovedPages(first);
    var (peer, second) := (ServeList(Moved, 2), WithOffset(first, 2));
    OffsetRoundTrip(first, 2);
    hide OffsetOf, WithOffset, ServeList, CollectOf;
    var c0 := Start<int>(first);
    var c1 := Crawl(Some(second), [2], Some(3), 1, 1, 0, 1);
    var c2 := Crawl(Some(second), [], Some(3), 1, 2, 0, 1);
    var c3: Crawl<int> := Crawl(None, [], Some(3), 2, 3, 0, 2);
    MovedFirst(peer, first, second, c0, c1);
    assert NextOf(peer, 10, c1) == (c2, Ok(Some(2))) by {
      assert [2][1..] == [];
    }
    MovedSecond(peer, second, c2, c3);
    hide NextOf;
    ThreeYields(peer, c0, c1, c2, c3, 1, 2, 1);
  }

  lemma ThreeYields<T>(peer: (nat, string) -> Response<T>, c0: Crawl<T>, c1: Crawl<T>, c2: Crawl<T>, c3: Crawl<T>,
                       x: T, y: T, z: T)
    requires c0.pages <= 10 && c3.pages <= 10 && c3.buffer == [] && c3.next.None?
    requires NextOf(peer, 10, c0) == (c1, Ok(Some(x))) && NextOf(peer, 10, c1) == (c2, Ok(Some(y)))
    requires c1.pages <= 10 && c2.pages <= 10 && NextOf(peer, 10, c2) == (c3, Ok(Some(z)))
    ensures CollectOf(peer, 10, c0) == (c3, Ok([x, y, z]))
  {
    hide NextOf, CollectOf;
    CollectOne(peer, 10, c0, c1, x);
    CollectOne(peer, 10, c1, c2, y);
    CollectOne(peer, 10, c2, c3, z);
    NothingLeft(peer, c3);
    assert [z] + [] == [z] && [y] + [z] == [y, z] && [x] + [y, z] == [x, y, z];
  }

  lemma MovedFirst(peer: (nat, string) -> Response<int>, first: string, second: string, c0: Crawl<int>, c1: Crawl<int>)
    requires peer(0, first) == Page([1, 2], Some(3), Some(second))
    requires c0 == Start(first) && c1 == Crawl(Some(second), [2], Some(3), 1, 1, 0, 1)
    ensures NextOf(peer, 10, c0) == (c1, Ok(Some(1)))
  {
    hide OffsetOf, WithOffset;
    assert [] + [1, 2] == [1, 2] && [1, 2][1..] == [2];
    FetchThenYield(peer, 10, c0, Page([1, 2], Some(3), Some(second)));
  }

  lemma MovedSecond(peer: (nat, string) -> Response<int>, second: string, c2: Crawl<int>, c3: Crawl<int>)
    requires peer(1, second) == Page([1], Some(3), None)
    requires c2 == Crawl(Some(second), [], Some(3), 1, 2, 0, 1) && c3 == Crawl(None, [], Some(3), 2, 3, 0, 2)
    ensures NextOf(peer, 10, c2) == (c3, Ok(Some(1)))
  {
    hide OffsetOf, WithOffset;
    assert [] + [1] == [1] && [1][1..] == [];
    FetchThenYield(peer, 10, c2, Page([1], Some(3), None));
  }

  lemma NothingLeft<T>(peer: (nat, string) -> Response<T>, c: Crawl<T>)
    requires c.buffer == [] && c.next.None? && c.pages <= 10
    ensures CollectOf(peer, 10, c) == (c, Ok([]))
  {
  }

  /** After an error the crawl has no next page, so the next call reports the end of the list. */
  lemma {:induction false} AfterAnErrorComesTheEnd<T>(peer: (nat, string) -> Response<T>, maxPages: nat, c: Crawl<T>)
    requires NextOf(peer, maxPages, c).1.Err?
    ensures var after := NextOf(peer, maxPages, c).0;
            NextOf(peer, maxPages, after) == (after, Ok(None))
    decreases if c.pages <= maxPages then maxPages - c.pages else 0
  {
    hide OffsetOf, WithOffset;
    if c.pages < maxPages && c.next.Some? && peer(c.requests, c.next.value).Page? {
      AfterAnErrorComesTheEnd(peer, maxPages, Received(c, c.next.value, peer(c.requests, c.next.value)));
    }
  }
}
