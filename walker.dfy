/** The historical level-volume walker, `unlimited_fast_calculate_level_volume`
    (main.py): follow the provider's page chain for a ticker and date range,
    retrying a failed request on the same url, and add up the trades whose
    price lies in the band `[level - tolerance, level + tolerance]`. */
module Walker {
  import opened Wrappers
  import opened Dates
  import opened Provider
  import opened Seqs

  /** The default half-width of the price band. */
  const DefaultTolerance: real := 0.025

  /** The last day `datetime` can represent; the walker adds a day to the end
      date, which fails for this one. */
  const LastDay := Date(9999, 12, 31)

  // ---- the per-trade fold ----

  /** A trade the walker counts: size and price are truthy and the price lies
      in the closed band around the level. */
  predicate InBand(level: real, tol: real, t: HistTrade) {
    TruthyInt(t.size) && TruthyReal(t.price) && level - tol <= t.price.value <= level + tol
  }

  /** The running totals. `minPrice` is `None` while it is still `float('inf')`;
      `maxPrice` starts at 0.0 as in the source. */
  datatype Totals = Totals(volume: int, value: real, trades: nat, minPrice: Option<real>, maxPrice: real)

  const Start := Totals(0, 0.0, 0, None, 0.0)

  function Min(a: real, b: real): real { if a <= b then a else b }
  function Max(a: real, b: real): real { if a >= b then a else b }

  /** The totals after one more trade. */
  function Count(acc: Totals, level: real, tol: real, t: HistTrade): Totals {
    if !InBand(level, tol, t) then acc
    else
      var q, p := t.size.value, t.price.value;
      Totals(acc.volume + q, acc.value + q as real * p, acc.trades + 1,
             Some(if acc.minPrice.Some? then Min(acc.minPrice.value, p) else p),
             Max(acc.maxPrice, p))
  }

  /** The totals after the trades `ts`, one after the other. */
  function Tally(acc: Totals, level: real, tol: real, ts: seq<HistTrade>): Totals {
    if ts == [] then acc
    else Count(Tally(acc, level, tol, ts[..|ts| - 1]), level, tol, ts[|ts| - 1])
  }

  // ---- an independent description of the totals ----

  /** The trades of `ts` the walker counts, in order. */
  function Banded(level: real, tol: real, ts: seq<HistTrade>): (b: seq<HistTrade>)
    ensures forall t :: t in b <==> t in ts && InBand(level, tol, t)
    ensures |b| <= |ts|
  {
    if ts == [] then []
    else
      var rest := Banded(level, tol, ts[..|ts| - 1]);
      var t := ts[|ts| - 1];
      assert ts == ts[..|ts| - 1] + [t];
      if InBand(level, tol, t) then rest + [t] else rest
  }

  function SizeSum(ts: seq<HistTrade>): int {
    if ts == [] then 0 else SizeSum(ts[..|ts| - 1]) + ts[|ts| - 1].size.GetOr(0)
  }

  function ValueSum(ts: seq<HistTrade>): real {
    if ts == [] then 0.0
    else ValueSum(ts[..|ts| - 1]) + ts[|ts| - 1].size.GetOr(0) as real * ts[|ts| - 1].price.GetOr(0.0)
  }

  lemma SumsSnoc(ts: seq<HistTrade>, t: HistTrade)
    ensures SizeSum(ts + [t]) == SizeSum(ts) + t.size.GetOr(0)
    ensures ValueSum(ts + [t]) == ValueSum(ts) + t.size.GetOr(0) as real * t.price.GetOr(0.0)
  {
    assert (ts + [t])[..|ts|] == ts;
  }

  /** From the start, the totals are the sums and the count over the in-band
      trades. */
  lemma {:induction false} TallySums(level: real, tol: real, ts: seq<HistTrade>)
    ensures Tally(Start, level, tol, ts).volume == SizeSum(Banded(level, tol, ts))
    ensures Tally(Start, level, tol, ts).value == ValueSum(Banded(level, tol, ts))
    ensures Tally(Start, level, tol, ts).trades == |Banded(level, tol, ts)|
  {
    if ts != [] {
      var init, t := ts[..|ts| - 1], ts[|ts| - 1];
      TallySums(level, tol, init);
      var b := Banded(level, tol, init);
      if InBand(level, tol, t) {
        assert Banded(level, tol, ts) == b + [t];
        SumsSnoc(b, t);
      } else {
        assert Banded(level, tol, ts) == b;
      }
    }
  }

  /** From the start, a lowest price exists exactly when a trade was counted;
      the lowest and highest prices bound every counted price, and each is
      the price of a counted trade (the highest unless it is still the initial
      0.0). */
  lemma {:induction false} TallyPrices(level: real, tol: real, ts: seq<HistTrade>)
    ensures Tally(Start, level, tol, ts).minPrice.None? <==> Banded(level, tol, ts) == []
    ensures forall t | t in Banded(level, tol, ts) ::
              Tally(Start, level, tol, ts).minPrice.Some?
              && Tally(Start, level, tol, ts).minPrice.value <= t.price.value <= Tally(Start, level, tol, ts).maxPrice
    ensures Tally(Start, level, tol, ts).minPrice.Some? ==>
              exists t | t in Banded(level, tol, ts) :: t.price.value == Tally(Start, level, tol, ts).minPrice.value
    ensures Tally(Start, level, tol, ts).maxPrice == 0.0
            || exists t | t in Banded(level, tol, ts) :: t.price.value == Tally(Start, level, tol, ts).maxPrice
  {
    if ts != [] {
      var init, t := ts[..|ts| - 1], ts[|ts| - 1];
      TallyPrices(level, tol, init);
      var b := Banded(level, tol, init);
      if InBand(level, tol, t) {
        assert Banded(level, tol, ts) == b + [t];
        assert forall u | u in b :: u in b + [t];
        assert t in b + [t];
      } else {
        assert Banded(level, tol, ts) == b;
      }
    }
  }

  /** Tallying two runs of trades is tallying the first, then the second. */
  lemma {:induction false} TallyAppend(acc: Totals, level: real, tol: real, a: seq<HistTrade>, b: seq<HistTrade>)
    ensures Tally(acc, level, tol, a + b) == Tally(Tally(acc, level, tol, a), level, tol, b)
    decreases |b|
  {
    if b == [] {
      assert a + b == a;
    } else {
      var init, t := b[..|b| - 1], b[|b| - 1];
      TallyAppend(acc, level, tol, a, init);
      assert (a + b)[..|a + b| - 1] == a + init;
    }
  }

  /** A trade outside the band, or without a truthy size or price, changes
      nothing wherever it appears. */
  lemma OutOfBandIgnored(acc: Totals, level: real, tol: real, a: seq<HistTrade>, t: HistTrade, b: seq<HistTrade>)
    requires !InBand(level, tol, t)
    ensures Tally(acc, level, tol, a + [t] + b) == Tally(acc, level, tol, a + b)
  {
    TallyAppend(acc, level, tol, a + [t], b);
    TallyAppend(acc, level, tol, a, b);
    assert (a + [t])[..|a|] == a;
  }

  // ---- the page chain ----

  /** The walker stops after the url answered at `i`: it had no results, or no
      `next_url`. */
  predicate Stops(h: History, i: nat) {
    PageAt(h, i).results == [] || !PageAt(h, i).hasNext
  }

  /** The first url from `i` on at which the walker stops. */
  function LastUrl(h: History, i: nat): (n: nat)
    ensures i <= n && (n == i || n <= |h.pages|)
    ensures forall k | i <= k < n :: h.pages[k].results != [] && h.pages[k].hasNext
    ensures Stops(h, n)
    decreases |h.pages| - i
  {
    if Stops(h, i) then i else LastUrl(h, i + 1)
  }

  /** The urls before `i` each answered with results and a `next_url`. */
  predicate Linked(h: History, i: nat) {
    i <= |h.pages| && forall k | 0 <= k < i :: h.pages[k].results != [] && h.pages[k].hasNext
  }

  /** Along linked urls, the first stop is the last url. */
  lemma LastUrlIs(h: History, i: nat)
    requires Linked(h, i) && Stops(h, i)
    ensures LastUrl(h, 0) == i
  {
  }

  /** The pages the walker reads: every linked page and the page it stops at. */
  function Seen(h: History): (ps: seq<Page>)
    ensures |ps| == LastUrl(h, 0) + 1
  {
    h.pages[..LastUrl(h, 0)] + [PageAt(h, LastUrl(h, 0))]
  }

  /** Requests made for the first `n` urls: each url's failed requests and the
      one that was answered. */
  function Attempts(h: History, n: nat): (c: nat)
    ensures c >= n
  {
    if n == 0 then 0 else Attempts(h, n - 1) + FailuresAt(h, n - 1) + 1
  }

  // ---- the whole call ----

  /** `$lo - $hi` when trades were counted, else `$level (no trades found)`. */
  datatype PriceRange = Observed(lo: real, hi: real) | NoTrades(level: real)

  function RangeOf(level: real, r: Totals): PriceRange {
    if r.trades > 0 && r.minPrice.Some? then Observed(r.minPrice.value, r.maxPrice) else NoTrades(level)
  }

  datatype WalkResult = WalkResult(volume: int, value: real, trades: nat, priceRange: PriceRange, apiCalls: nat)

  /** The ValueErrors raised before any request (no API key, a date text
      `strptime` rejects) and the OverflowError of `end + 1 day`. */
  datatype WalkError = MissingApiKey | BadDate(reason: DateError) | DateOverflow

  /** What the walker returns or raises. */
  function WalkOutcome(apiKeySet: bool, level: real, tol: real, startDate: string, endDate: string, h: History)
    : Result<WalkResult, WalkError>
  {
    if !apiKeySet then Err(MissingApiKey)
    else if ParseDate(startDate).Err? then Err(BadDate(ParseDate(startDate).error))
    else if ParseDate(endDate).Err? then Err(BadDate(ParseDate(endDate).error))
    else if ParseDate(endDate).value == LastDay then Err(DateOverflow)
    else
      var r := Tally(Start, level, tol, Trades(Seen(h)));
      Ok(WalkResult(r.volume, r.value, r.trades, RangeOf(level, r), Attempts(h, LastUrl(h, 0) + 1)))
  }

  /** The inner `for trade in results` loop. */
  method TallyPage(acc0: Totals, level: real, tol: real, results: seq<HistTrade>) returns (acc: Totals)
    ensures acc == Tally(acc0, level, tol, results)
  {
    acc := acc0;
    for j := 0 to |results|
      invariant acc == Tally(acc0, level, tol, results[..j])
    {
      var trade := results[j];
      TakeOneMore(results, j);
      assert results[..j + 1][..j] == results[..j];
      if !(TruthyInt(trade.size) && TruthyReal(trade.price)) {
        continue;
      }
      var qty, price := trade.size.value, trade.price.value;
      if level - tol <= price <= level + tol {
        var lo := if acc.minPrice.Some? then Min(acc.minPrice.value, price) else price;
        acc := Totals(acc.volume + qty, acc.value + qty as real * price, acc.trades + 1,
                      Some(lo), Max(acc.maxPrice, price));
      }
    }
    assert results[..|results|] == results;
  }

  /** `unlimited_fast_calculate_level_volume` over the provider's answers `h`. */
  method Walk(apiKeySet: bool, level: real, tol: real, startDate: string, endDate: string, h: History)
    returns (r: Result<WalkResult, WalkError>)
    ensures r == WalkOutcome(apiKeySet, level, tol, startDate, endDate, h)
  {
    if !apiKeySet {
      return Err(MissingApiKey);
    }
    var start := ParseDate(startDate);
    if start.Err? {
      return Err(BadDate(start.error));
    }
    var end := ParseDate(endDate);
    if end.Err? {
      return Err(BadDate(end.error));
    }
    if end.value == LastDay {
      return Err(DateOverflow);
    }
    var acc := Start;
    var apiCalls := 0;
    var i: nat := 0;
    var failed: nat := 0;
    var more := true;
    while more
      invariant Linked(h, i)
      invariant failed <= FailuresAt(h, i)
      invariant more ==> acc == Tally(Start, level, tol, Trades(h.pages[..i])) && apiCalls == Attempts(h, i) + failed
      invariant !more ==> acc == Tally(Start, level, tol, Trades(Seen(h))) && apiCalls == Attempts(h, LastUrl(h, 0) + 1)
      decreases more, |h.pages| - i, FailuresAt(h, i) - failed
    {
      apiCalls := apiCalls + 1;
      if failed < FailuresAt(h, i) {
        // the request raised: try the same url again
        failed := failed + 1;
      } else {
        acc, more := WalkPage(h, i, level, tol, acc);
        if more {
          i, failed := i + 1, 0;
        }
      }
    }
    return Ok(WalkResult(acc.volume, acc.value, acc.trades, RangeOf(level, acc), apiCalls));
  }

  /** Reading the answered page at url `i`: add its trades, and say whether
      the walk goes on to the next url. */
  method WalkPage(h: History, i: nat, level: real, tol: real, acc0: Totals) returns (acc: Totals, more: bool)
    requires Linked(h, i)
    requires acc0 == Tally(Start, level, tol, Trades(h.pages[..i]))
    ensures more ==> Linked(h, i + 1) && acc == Tally(Start, level, tol, Trades(h.pages[..i + 1]))
    ensures !more ==> LastUrl(h, 0) == i && acc == Tally(Start, level, tol, Trades(Seen(h)))
  {
    var page := PageAt(h, i);
    TradesSnoc(h.pages[..i], page);
    if page.results == [] {
      // no more results: stop without reading
      assert Trades(h.pages[..i]) + page.results == Trades(h.pages[..i]);
      LastUrlIs(h, i);
      return acc0, false;
    }
    acc := TallyPage(acc0, level, tol, page.results);
    TallyAppend(Start, level, tol, Trades(h.pages[..i]), page.results);
    if page.hasNext {
      TakeOneMore(h.pages, i);
      more := true;
    } else {
      LastUrlIs(h, i);
      more := false;
    }
  }

  // ---- what the walk promises ----

  /** The walk fails exactly on a missing key, a date text `strptime`
      rejects, or the last representable end date. */
  lemma WalkFailsOnlyOnInput(apiKeySet: bool, level: real, tol: real, startDate: string, endDate: string, h: History)
    ensures WalkOutcome(apiKeySet, level, tol, startDate, endDate, h).Err?
        <==> !apiKeySet || ParseDate(startDate).Err? || ParseDate(endDate).Err? || ParseDate(endDate) == Ok(LastDay)
    ensures !apiKeySet ==> WalkOutcome(apiKeySet, level, tol, startDate, endDate, h) == Err(MissingApiKey)
  {
  }

  /** A successful walk reports the sums and the count over the in-band trades
      of the pages it read, one request per answered url plus one per failed
      request, and a price range exactly when it counted a trade, which then
      bounds every counted price. */
  lemma WalkTotals(apiKeySet: bool, level: real, tol: real, startDate: string, endDate: string, h: History)
    requires WalkOutcome(apiKeySet, level, tol, startDate, endDate, h).Ok?
    ensures var r := WalkOutcome(apiKeySet, level, tol, startDate, endDate, h).value;
            var counted := Banded(level, tol, Trades(Seen(h)));
            r.volume == SizeSum(counted) && r.value == ValueSum(counted) && r.trades == |counted|
            && r.apiCalls == Attempts(h, |Seen(h)|) && r.apiCalls >= |Seen(h)|
            && (r.priceRange.Observed? <==> r.trades > 0)
            && (r.priceRange.Observed? ==>
                  forall t | t in counted :: r.priceRange.lo <= t.price.value <= r.priceRange.hi)
  {
    TallySums(level, tol, Trades(Seen(h)));
    TallyPrices(level, tol, Trades(Seen(h)));
  }

  /** The pages read are the first pages of the chain, each but the last with
      results and a `next_url`; the last has no results or no `next_url`. */
  lemma SeenShape(h: History)
    ensures var ps := Seen(h);
            ps[..|ps| - 1] == h.pages[..|ps| - 1]
            && (forall k | 0 <= k < |ps| - 1 :: ps[k].results != [] && ps[k].hasNext)
            && (ps[|ps| - 1].results == [] || !ps[|ps| - 1].hasNext)
  {
    var n := LastUrl(h, 0);
    assert Seen(h)[..n] == h.pages[..n];
  }

  lemma {:induction false} LastUrlIgnoresFailures(pages: seq<Page>, f: seq<nat>, g: seq<nat>, i: nat)
    ensures LastUrl(History(pages, f), i) == LastUrl(History(pages, g), i)
    decreases |pages| - i
  {
    if !Stops(History(pages, f), i) {
      LastUrlIgnoresFailures(pages, f, g, i + 1);
    }
  }

  /** A failed request is retried on the same url and changes no total: with
      or without failures the walk reads the same pages and reports the same
      totals and range; without failures it makes one call per page read,
      and failures only add calls. */
  lemma RetriesOnlyAddCalls(apiKeySet: bool, level: real, tol: real, startDate: string, endDate: string,
                            pages: seq<Page>, failures: seq<nat>)
    ensures var a := WalkOutcome(apiKeySet, level, tol, startDate, endDate, History(pages, failures));
            var b := WalkOutcome(apiKeySet, level, tol, startDate, endDate, History(pages, []));
            (a.Ok? <==> b.Ok?)
            && (a.Ok? ==>
                  a.value.(apiCalls := 0) == b.value.(apiCalls := 0)
                  && b.value.apiCalls == |Seen(History(pages, []))|
                  && a.value.apiCalls >= b.value.apiCalls)
  {
    var h, h0 := History(pages, failures), History(pages, []);
    LastUrlIgnoresFailures(pages, failures, [], 0);
    assert Seen(h) == Seen(h0);
    NoFailuresOneCall(h0, LastUrl(h0, 0) + 1);
    MoreFailuresMoreCalls(h, h0, LastUrl(h0, 0) + 1);
  }

  lemma {:induction false} NoFailuresOneCall(h: History, n: nat)
    requires h.failures == []
    ensures Attempts(h, n) == n
  {
    if n > 0 {
      NoFailuresOneCall(h, n - 1);
    }
  }

  lemma {:induction false} MoreFailuresMoreCalls(h: History, h0: History, n: nat)
    requires h0.failures == []
    ensures Attempts(h, n) >= Attempts(h0, n)
  {
    if n > 0 {
      MoreFailuresMoreCalls(h, h0, n - 1);
    }
  }

  /** Two trades at the level, 1,000 shares at $100.00 and 500 at $100.02,
      and 700 at $100.05, outside the default tolerance of the $100 level, on
      one page: 1,500 shares in two trades and one call; the third trade is
      not counted. */
  lemma TwoTradesAtLevel()
    ensures var h := History([Page([HistTrade(Some(1000), Some(100.00), None, None, None, None, Absent),
                                     HistTrade(Some(500), Some(100.02), None, None, None, None, Absent),
                                     HistTrade(Some(700), Some(100.05), None, None, None, None, Absent)], false)], []);
            WalkOutcome(true, 100.0, DefaultTolerance, "2024-01-02", "2024-01-31", h)
              == Ok(WalkResult(1500, 150010.0, 2, Observed(100.00, 100.02), 1))
  {
    var a := HistTrade(Some(1000), Some(100.00), None, None, None, None, Absent);
    var b := HistTrade(Some(500), Some(100.02), None, None, None, None, Absent);
    var c := HistTrade(Some(700), Some(100.05), None, None, None, None, Absent);
    var page := Page([a, b, c], false);
    var h := History([page], []);
    assert ParseDate("2024-01-02").Ok? && ParseDate("2024-01-31") == Ok(Date(2024, 1, 31));
    assert LastUrl(h, 0) == 0;
    assert Seen(h) == [page];
    assert Trades([page]) == [a, b, c] by {
      assert [page][..0] == [];
    }
    assert [a, b, c][..2] == [a, b];
    assert [a, b][..1] == [a];
    assert Tally(Start, 100.0, DefaultTolerance, [a]) == Totals(1000, 100000.0, 1, Some(100.00), 100.00);
    assert Tally(Start, 100.0, DefaultTolerance, [a, b]) == Totals(1500, 150010.0, 2, Some(100.00), 100.02);
    assert !InBand(100.0, DefaultTolerance, c);
    assert Tally(Start, 100.0, DefaultTolerance, [a, b, c]) == Totals(1500, 150010.0, 2, Some(100.00), 100.02);
    assert Attempts(h, 1) == 1;
  }

  /** An end date of 9999-12-31 cannot be moved a day on. */
  lemma LastDayOverflows(h: History)
    ensures WalkOutcome(true, 100.0, DefaultTolerance, "2024-01-02", "9999-12-31", h) == Err(DateOverflow)
  {
  }
}
