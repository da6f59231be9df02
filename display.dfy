/** The display helpers of the chat bot (bot.py): the suffix of
    `format_large_number`, the 20-cell progress bar of a running job, the
    day-summary rows of `PaginatorView` and its page arithmetic and buttons. */
module Display {
  import opened Wrappers
  import opened Seqs

  // ---- format_large_number ----

  /** The form `format_large_number` writes a figure in. */
  datatype Scale = NotAvailable | Billions | Millions | Thousands | Plain

  /** Figures from 999,950,000 up are written in billions. */
  const BillionsFrom: real := 999950000.0

  function ScaleOf(num: Option<real>): (s: Scale)
    ensures s == NotAvailable <==> num.None?
    ensures s == Billions <==> num.Some? && num.value >= BillionsFrom
    ensures s == Millions <==> num.Some? && 1000000.0 <= num.value < BillionsFrom
    ensures s == Thousands <==> num.Some? && 1000.0 <= num.value < 1000000.0
    ensures s == Plain <==> num.Some? && num.value < 1000.0
  {
    match num
    case None => NotAvailable
    case Some(n) =>
      if n >= BillionsFrom then Billions
      else if n >= 1000000.0 then Millions
      else if n >= 1000.0 then Thousands
      else Plain
  }

  /** The figure written before the suffix (before rounding to two decimals). */
  function Shown(n: real): real {
    match ScaleOf(Some(n))
    case Billions => n / 1000000000.0
    case Millions => n / 1000000.0
    case Thousands => n / 1000.0
    case _ => n
  }

  /** A figure with a suffix is written as at least 1 and, in millions and
      thousands, below 1000 of its unit. */
  lemma ShownBounds(n: real)
    ensures ScaleOf(Some(n)) == Billions ==> Shown(n) >= 0.99995
    ensures ScaleOf(Some(n)) == Millions ==> 1.0 <= Shown(n) < 999.95
    ensures ScaleOf(Some(n)) == Thousands ==> 1.0 <= Shown(n) < 1000.0
    ensures ScaleOf(Some(n)) == Plain ==> Shown(n) == n
  {
  }

  // ---- the progress bar ----

  /** `int(progress / 5)`: the quotient truncated toward zero. */
  function Filled(progress: int): int {
    if progress >= 0 then progress / 5 else -((-progress) / 5)
  }

  /** `c * n`: a string of `n` copies of `c`, empty when `n` is not positive. */
  function Repeat(c: char, n: int): (s: string)
    ensures |s| == if n > 0 then n else 0
    ensures forall i :: 0 <= i < |s| ==> s[i] == c
  {
    if n <= 0 then [] else [c] + Repeat(c, n - 1)
  }

  /** The bar of a running job: `filled` full cells, then `20 - filled` empty. */
  function ProgressBar(progress: int): string {
    Repeat('█', Filled(progress)) + Repeat('░', 20 - Filled(progress))
  }

  /** For a progress in 0..100 the bar has 20 cells, one full cell per whole 5%,
      and the full cells come first. */
  lemma ProgressBarShape(progress: int)
    requires 0 <= progress <= 100
    ensures |ProgressBar(progress)| == 20
    ensures forall i :: 0 <= i < 20 ==> (ProgressBar(progress)[i] == '█' <==> i < progress / 5)
    ensures forall i :: 0 <= i < 20 ==> (ProgressBar(progress)[i] == '░' <==> i >= progress / 5)
  {
    var full := Repeat('█', Filled(progress));
    var rest := Repeat('░', 20 - Filled(progress));
    assert ProgressBar(progress) == full + rest;
    forall i | 0 <= i < 20 ensures (full + rest)[i] == (if i < progress / 5 then '█' else '░') {
      if i < |full| {
        assert (full + rest)[i] == full[i];
      } else {
        assert (full + rest)[i] == rest[i - |full|];
      }
    }
  }

  /** More progress never shows fewer full cells. */
  lemma ProgressBarMonotone(p: int, q: int)
    requires p <= q
    ensures Filled(p) <= Filled(q)
  {
  }

  // ---- the day summaries ----

  /** A trade row as the bot receives it; `day` is the date part of
      `trade_time` as the number YYYYMMDD, which orders as its `%Y-%m-%d`
      text does. */
  datatype BotTrade = BotTrade(ticker: string, quantity: int, price: real, tradeValue: real, day: int)

  /** A displayed row: a day's totals or one trade. */
  datatype Row =
    | Summary(ticker: string, day: int, quantity: int, value: real)
    | TradeRow(trade: BotTrade)

  /** The trades of one day, in input order (`trades_by_date[day]`). */
  function OfDay(ts: seq<BotTrade>, d: int): (r: seq<BotTrade>)
    ensures forall t :: t in r <==> t in ts && t.day == d
    ensures |r| <= |ts|
  {
    if ts == [] then []
    else
      var rest := OfDay(ts[..|ts| - 1], d);
      var t := ts[|ts| - 1];
      assert ts == ts[..|ts| - 1] + [t];
      if t.day == d then rest + [t] else rest
  }

  lemma OfDaySnoc(ts: seq<BotTrade>, t: BotTrade, d: int)
    ensures OfDay(ts + [t], d) == if t.day == d then OfDay(ts, d) + [t] else OfDay(ts, d)
  {
    assert (ts + [t])[..|ts|] == ts;
  }

  function SumQuantity(ts: seq<BotTrade>): int {
    if ts == [] then 0 else ts[0].quantity + SumQuantity(ts[1..])
  }

  function SumValue(ts: seq<BotTrade>): real {
    if ts == [] then 0.0 else ts[0].tradeValue + SumValue(ts[1..])
  }

  predicate StrictlyDescending(ds: seq<int>) {
    forall i, j | 0 <= i < j < |ds| :: ds[i] > ds[j]
  }

  lemma ConsDescending(x: int, rest: seq<int>)
    requires StrictlyDescending(rest)
    requires forall y | y in rest :: x > y
    ensures StrictlyDescending([x] + rest)
  {
    forall i, j | 0 <= i < j < |[x] + rest| ensures ([x] + rest)[i] > ([x] + rest)[j] {
      if i > 0 {
        assert ([x] + rest)[i] == rest[i - 1];
      }
      assert ([x] + rest)[j] == rest[j - 1];
      assert rest[j - 1] in rest;
    }
  }

  /** Add a day to a strictly descending list of days, once. */
  function InsertDay(ds: seq<int>, d: int): (r: seq<int>)
    requires StrictlyDescending(ds)
    ensures StrictlyDescending(r)
    ensures forall x :: x in r <==> x in ds || x == d
  {
    if ds == [] then [d]
    else if d == ds[0] then ds
    else if d > ds[0] then
      ConsDescending(d, ds);
      [d] + ds
    else
      var rest := InsertDay(ds[1..], d);
      assert forall y | y in ds[1..] :: ds[0] > y;
      ConsDescending(ds[0], rest);
      [ds[0]] + rest
  }

  /** The days the trades fall on, latest first, each once: the keys of
      `trades_by_date` as `sorted(..., reverse=True)` gives them. */
  function DaysDescending(ts: seq<BotTrade>): (r: seq<int>)
    ensures StrictlyDescending(r)
    ensures forall d :: d in r <==> exists t | t in ts :: t.day == d
  {
    if ts == [] then []
    else
      var t := ts[|ts| - 1];
      assert ts == ts[..|ts| - 1] + [t];
      InsertDay(DaysDescending(ts[..|ts| - 1]), t.day)
  }

  /** Every listed day has trades. */
  predicate Present(ts: seq<BotTrade>, days: seq<int>) {
    forall i | 0 <= i < |days| :: OfDay(ts, days[i]) != []
  }

  lemma DaysPresent(ts: seq<BotTrade>)
    ensures Present(ts, DaysDescending(ts))
  {
    var days := DaysDescending(ts);
    forall i | 0 <= i < |days| ensures OfDay(ts, days[i]) != [] {
      assert days[i] in days;
      var t :| t in ts && t.day == days[i];
      assert t in OfDay(ts, days[i]);
    }
  }

  function TradeRows(ts: seq<BotTrade>): (rows: seq<Row>)
    ensures |rows| == |ts|
  {
    if ts == [] then [] else [TradeRow(ts[0])] + TradeRows(ts[1..])
  }

  /** The summary row of a day, then the day's trades. */
  function DayBlock(ts: seq<BotTrade>, d: int): (rows: seq<Row>)
    requires OfDay(ts, d) != []
  {
    var g := OfDay(ts, d);
    [Summary(g[0].ticker, d, SumQuantity(g), SumValue(g))] + TradeRows(g)
  }

  /** The blocks of the listed days, in the listed order. */
  function Grouped(ts: seq<BotTrade>, days: seq<int>): (rows: seq<Row>)
    requires Present(ts, days)
  {
    if days == [] then [] else DayBlock(ts, days[0]) + Grouped(ts, days[1..])
  }

  /** What `_process_trades_with_summaries` gives for `ts`. */
  function Summarized(ts: seq<BotTrade>): seq<Row> {
    DaysPresent(ts);
    Grouped(ts, DaysDescending(ts))
  }

  lemma {:induction false} GroupedSnoc(ts: seq<BotTrade>, days: seq<int>, d: int)
    requires Present(ts, days) && OfDay(ts, d) != []
    ensures Present(ts, days + [d])
    ensures Grouped(ts, days + [d]) == Grouped(ts, days) + DayBlock(ts, d)
    decreases |days|
  {
    assert forall i | 0 <= i < |days| :: (days + [d])[i] == days[i];
    assert (days + [d])[|days|] == d;
    if days == [] {
      assert ([] + [d])[1..] == [];
    } else {
      assert (days + [d])[1..] == days[1..] + [d];
      assert forall i | 0 <= i < |days[1..]| :: days[1..][i] == days[i + 1];
      GroupedSnoc(ts, days[1..], d);
    }
  }

  /** The first loop of `_process_trades_with_summaries`: the trades of each
      day that has any, in input order, under that day. */
  method BucketByDay(trades: seq<BotTrade>) returns (byDate: map<int, seq<BotTrade>>)
    ensures forall d :: d in byDate <==> OfDay(trades, d) != []
    ensures forall d | d in byDate :: byDate[d] == OfDay(trades, d)
  {
    byDate := map[];
    for i := 0 to |trades|
      invariant forall d :: d in byDate <==> OfDay(trades[..i], d) != []
      invariant forall d | d in byDate :: byDate[d] == OfDay(trades[..i], d)
    {
      var t := trades[i];
      TakeOneMore(trades, i);
      forall d ensures OfDay(trades[..i + 1], d) == if t.day == d then OfDay(trades[..i], d) + [t] else OfDay(trades[..i], d) {
        OfDaySnoc(trades[..i], t, d);
      }
      var dayTrades := if t.day in byDate then byDate[t.day] else [];
      byDate := byDate[t.day := dayTrades + [t]];
    }
    assert trades[..|trades|] == trades;
  }

  /** One day of the output: the summary row with the day's totals, then the
      day's trades. */
  method DayRows(trades: seq<BotTrade>, day: int, dayTrades: seq<BotTrade>) returns (block: seq<Row>)
    requires dayTrades == OfDay(trades, day) != []
    ensures block == DayBlock(trades, day)
  {
    var totalQuantity := SumQuantity(dayTrades);
    var totalValue := SumValue(dayTrades);
    block := [Summary(dayTrades[0].ticker, day, totalQuantity, totalValue)] + TradeRows(dayTrades);
  }

  /** `_process_trades_with_summaries`: bucket the trades by day, then for
      each day, latest first, a summary row with the day's totals followed
      by the day's trades. */
  method ProcessTradesWithSummaries(trades: seq<BotTrade>) returns (rows: seq<Row>)
    ensures rows == Summarized(trades)
  {
    if |trades| == 0 {
      return [];
    }
    var byDate := BucketByDay(trades);
    var days := DaysDescending(trades);
    DaysPresent(trades);
    rows := [];
    for k := 0 to |days|
      invariant Present(trades, days[..k])
      invariant rows == Grouped(trades, days[..k])
    {
      TakeOneMore(days, k);
      var block := DayRows(trades, days[k], byDate[days[k]]);
      GroupedSnoc(trades, days[..k], days[k]);
      rows := rows + block;
    }
    assert days[..|days|] == days;
  }

  // ---- what the grouping keeps ----

  /** The trades of the listed days, day after day. */
  function Flatten(ts: seq<BotTrade>, days: seq<int>): seq<BotTrade> {
    if days == [] then [] else OfDay(ts, days[0]) + Flatten(ts, days[1..])
  }

  /** The trade a row shows, if it shows one. */
  function TradeOf(r: Row): seq<BotTrade> {
    if r.TradeRow? then [r.trade] else []
  }

  /** The day a row summarises, if it is a summary. */
  function SummaryDayOf(r: Row): seq<int> {
    if r.Summary? then [r.day] else []
  }

  /** The trades the rows show, in order. */
  function TradesIn(rows: seq<Row>): seq<BotTrade> {
    if rows == [] then [] else TradeOf(rows[0]) + TradesIn(rows[1..])
  }

  /** The days of the summary rows, in order. */
  function SummaryDays(rows: seq<Row>): seq<int> {
    if rows == [] then [] else SummaryDayOf(rows[0]) + SummaryDays(rows[1..])
  }

  lemma {:induction false} TradesInAppend(a: seq<Row>, b: seq<Row>)
    ensures TradesIn(a + b) == TradesIn(a) + TradesIn(b)
    decreases |a|
  {
    if a == [] {
      assert a + b == b;
    } else {
      assert (a + b)[0] == a[0];
      assert (a + b)[1..] == a[1..] + b;
      TradesInAppend(a[1..], b);
      Associate(TradeOf(a[0]), TradesIn(a[1..]), TradesIn(b));
    }
  }

  lemma {:induction false} SummaryDaysAppend(a: seq<Row>, b: seq<Row>)
    ensures SummaryDays(a + b) == SummaryDays(a) + SummaryDays(b)
    decreases |a|
  {
    if a == [] {
      assert a + b == b;
    } else {
      assert (a + b)[0] == a[0];
      assert (a + b)[1..] == a[1..] + b;
      SummaryDaysAppend(a[1..], b);
      Associate(SummaryDayOf(a[0]), SummaryDays(a[1..]), SummaryDays(b));
    }
  }

  lemma {:induction false} TradesInRows(ts: seq<BotTrade>)
    ensures TradesIn(TradeRows(ts)) == ts
    ensures SummaryDays(TradeRows(ts)) == []
    decreases |ts|
  {
    if ts != [] {
      var rows := TradeRows(ts);
      assert rows[0] == TradeRow(ts[0]);
      assert rows[1..] == TradeRows(ts[1..]);
      TradesInRows(ts[1..]);
    }
  }

  /** The rows show the listed days' trades, day after day. */
  lemma {:induction false} GroupedTrades(ts: seq<BotTrade>, days: seq<int>)
    requires Present(ts, days)
    ensures TradesIn(Grouped(ts, days)) == Flatten(ts, days)
    decreases |days|
  {
    if days != [] {
      var g := OfDay(ts, days[0]);
      var head := [Summary(g[0].ticker, days[0], SumQuantity(g), SumValue(g))];
      var rest := Grouped(ts, days[1..]);
      assert forall i | 0 <= i < |days[1..]| :: days[1..][i] == days[i + 1];
      Associate(head, TradeRows(g), rest);
      GroupedTrades(ts, days[1..]);
      TradesInAppend(head, TradeRows(g) + rest);
      TradesInAppend(TradeRows(g), rest);
      TradesInRows(g);
      assert head[1..] == [];
    }
  }

  /** The summary rows are one per listed day, in the listed order. */
  lemma {:induction false} GroupedDays(ts: seq<BotTrade>, days: seq<int>)
    requires Present(ts, days)
    ensures SummaryDays(Grouped(ts, days)) == days
    decreases |days|
  {
    if days != [] {
      var g := OfDay(ts, days[0]);
      var head := [Summary(g[0].ticker, days[0], SumQuantity(g), SumValue(g))];
      var rest := Grouped(ts, days[1..]);
      assert forall i | 0 <= i < |days[1..]| :: days[1..][i] == days[i + 1];
      Associate(head, TradeRows(g), rest);
      GroupedDays(ts, days[1..]);
      SummaryDaysAppend(head, TradeRows(g) + rest);
      SummaryDaysAppend(TradeRows(g), rest);
      TradesInRows(g);
      assert head[1..] == [];
      HeadThenTail(days);
    }
  }

  /** One row more per listed day than there are trades of those days. */
  lemma {:induction false} GroupedLength(ts: seq<BotTrade>, days: seq<int>)
    requires Present(ts, days)
    ensures |Grouped(ts, days)| == |Flatten(ts, days)| + |days|
    decreases |days|
  {
    if days != [] {
      assert forall i | 0 <= i < |days[1..]| :: days[1..][i] == days[i + 1];
      GroupedLength(ts, days[1..]);
    }
  }

  predicate Distinct(days: seq<int>) {
    forall i, j | 0 <= i < j < |days| :: days[i] != days[j]
  }

  /** One more trade adds it to the flattened trades exactly once when its
      day is listed. */
  /** The tail of a list without repeats has none either, and does not hold
      the head. */
  lemma DistinctTail(days: seq<int>)
    requires Distinct(days) && days != []
    ensures Distinct(days[1..]) && days[0] !in days[1..]
  {
    forall i, j | 0 <= i < j < |days[1..]| ensures days[1..][i] != days[1..][j] {
      assert days[1..][i] == days[i + 1] && days[1..][j] == days[j + 1];
    }
    forall i | 0 <= i < |days[1..]| ensures days[1..][i] != days[0] {
      assert days[1..][i] == days[i + 1];
    }
  }

  lemma {:induction false} FlattenSnoc(ts: seq<BotTrade>, t: BotTrade, days: seq<int>)
    requires Distinct(days)
    ensures multiset(Flatten(ts + [t], days))
            == multiset(Flatten(ts, days)) + if t.day in days then multiset{t} else multiset{}
    decreases |days|
  {
    if days != [] {
      OfDaySnoc(ts, t, days[0]);
      DistinctTail(days);
      FlattenSnoc(ts, t, days[1..]);
      assert t.day in days <==> t.day == days[0] || t.day in days[1..];
    }
  }

  /** Over distinct days that cover every trade, the flattened trades are the
      trades, each once. */
  lemma {:induction false} FlattenKeepsTrades(ts: seq<BotTrade>, days: seq<int>)
    requires Distinct(days)
    requires forall t | t in ts :: t.day in days
    ensures multiset(Flatten(ts, days)) == multiset(ts)
    decreases |ts|
  {
    if ts == [] {
      EmptyFlatten(days);
    } else {
      var init, t := ts[..|ts| - 1], ts[|ts| - 1];
      assert ts == init + [t];
      assert forall u | u in init :: u in ts;
      FlattenKeepsTrades(init, days);
      FlattenSnoc(init, t, days);
    }
  }

  lemma {:induction false} EmptyFlatten(days: seq<int>)
    ensures Flatten([], days) == []
    decreases |days|
  {
    if days != [] {
      EmptyFlatten(days[1..]);
    }
  }

  /** `_process_trades_with_summaries` shows every trade exactly once, one
      summary per distinct day with the days latest first, so the rows number
      the trades plus the distinct days; no trades give no rows. */
  lemma SummarizedShape(ts: seq<BotTrade>)
    ensures multiset(TradesIn(Summarized(ts))) == multiset(ts)
    ensures SummaryDays(Summarized(ts)) == DaysDescending(ts)
    ensures StrictlyDescending(SummaryDays(Summarized(ts)))
    ensures |Summarized(ts)| == |ts| + |DaysDescending(ts)|
    ensures ts == [] ==> Summarized(ts) == []
  {
    var days := DaysDescending(ts);
    DaysPresent(ts);
    GroupedTrades(ts, days);
    GroupedDays(ts, days);
    GroupedLength(ts, days);
    assert Distinct(days);
    forall t | t in ts ensures t.day in days {
    }
    FlattenKeepsTrades(ts, days);
    assert |multiset(Flatten(ts, days))| == |multiset(ts)|;
  }

  /** Each summary row carries the totals of its day's trades. */
  lemma {:induction false} SummariesTotal(ts: seq<BotTrade>, days: seq<int>)
    requires Present(ts, days)
    ensures forall r | r in Grouped(ts, days) && r.Summary? ::
              OfDay(ts, r.day) != [] && r.ticker == OfDay(ts, r.day)[0].ticker
              && r.quantity == SumQuantity(OfDay(ts, r.day)) && r.value == SumValue(OfDay(ts, r.day))
    decreases |days|
  {
    if days != [] {
      assert forall i | 0 <= i < |days[1..]| :: days[1..][i] == days[i + 1];
      SummariesTotal(ts, days[1..]);
      var g := OfDay(ts, days[0]);
      forall r | r in TradeRows(g) ensures r.TradeRow? {
        TradeRowsAreTrades(g);
      }
    }
  }

  /** The plain layout shows the trades themselves, one row each, in input
      order. */
  lemma {:induction false} TradeRowsAreTrades(ts: seq<BotTrade>)
    ensures forall i | 0 <= i < |ts| :: TradeRows(ts)[i] == TradeRow(ts[i])
    ensures forall r | r in TradeRows(ts) :: r.TradeRow?
    decreases |ts|
  {
    if ts != [] {
      TradeRowsAreTrades(ts[1..]);
      forall i | 1 <= i < |ts| ensures TradeRows(ts)[i] == TradeRow(ts[i]) {
        assert ts[1..][i - 1] == ts[i];
      }
    }
  }

  // ---- pages ----

  const PerPage := 15

  /** `math.ceil(n / 15)`. */
  function TotalPages(n: nat): (p: nat)
    ensures p * PerPage >= n
    ensures n > 0 ==> (p - 1) * PerPage < n
    ensures n == 0 ==> p == 0
  {
    (n + PerPage - 1) / PerPage
  }

  /** Python's `s[a:b]`: negative bounds count from the end, and bounds are
      clipped to the sequence. */
  function PySlice<T>(s: seq<T>, a: int, b: int): (r: seq<T>)
    ensures |r| <= |s|
  {
    var lo := if a < 0 then (if a + |s| < 0 then 0 else a + |s|) else (if a > |s| then |s| else a);
    var hi := if b < 0 then (if b + |s| < 0 then 0 else b + |s|) else (if b > |s| then |s| else b);
    if lo < hi then s[lo..hi] else []
  }

  /** The rows `generate_image_file` draws for a page. */
  function PageRows<T>(rows: seq<T>, page: int): seq<T> {
    PySlice(rows, page * PerPage, page * PerPage + PerPage)
  }

  /** Every row is on exactly one page: row `i` is the `i % 15`-th row of
      page `i / 15`, which is one of the pages counted. */
  lemma RowOnItsPage<T>(rows: seq<T>, i: nat)
    requires i < |rows|
    ensures i / PerPage < TotalPages(|rows|)
    ensures i % PerPage < |PageRows(rows, i / PerPage)|
    ensures PageRows(rows, i / PerPage)[i % PerPage] == rows[i]
  {
    var p := i / PerPage;
    assert p * PerPage <= i < p * PerPage + PerPage;
  }

  /** A counted page is never empty and holds at most 15 rows. */
  lemma PageSize<T>(rows: seq<T>, page: int)
    requires 0 <= page < TotalPages(|rows|)
    ensures 0 < |PageRows(rows, page)| <= PerPage
  {
  }

  /** The page before the first shows nothing. */
  lemma PageBeforeFirst<T>(rows: seq<T>)
    ensures PageRows(rows, -1) == []
  {
  }

  // ---- the buttons ----

  /** The pager's state: the page shown, the page count, and whether each
      button is disabled. */
  datatype Pager = Pager(page: int, total: int, previousDisabled: bool, nextDisabled: bool)

  /** `_update_message`: Previous is disabled on the first page, Next from the
      last page on. */
  function Refreshed(page: int, total: int): (p: Pager)
    ensures p.page == page && p.total == total
    ensures p.previousDisabled <==> page == 0
    ensures p.nextDisabled <==> page >= total - 1
  {
    Pager(page, total, page == 0, page >= total - 1)
  }

  /** A press on Previous (or Next): nothing when the button is disabled,
      else one page back (or on) and the buttons refreshed. */
  function Press(p: Pager, previous: bool): (r: Option<Pager>)
    ensures r.None? <==> (if previous then p.previousDisabled else p.nextDisabled)
    ensures r.Some? ==> r.value == Refreshed(if previous then p.page - 1 else p.page + 1, p.total)
  {
    if previous then
      if p.previousDisabled then None else Some(Refreshed(p.page - 1, p.total))
    else
      if p.nextDisabled then None else Some(Refreshed(p.page + 1, p.total))
  }

  /** The presses in turn; a press on a disabled button does nothing. */
  function Presses(p: Pager, presses: seq<bool>): Pager
    decreases |presses|
  {
    if presses == [] then p
    else
      var q := Press(p, presses[0]);
      Presses(if q.Some? then q.value else p, presses[1..])
  }

  /** The view as written: both buttons start enabled. */
  function OpenAsWritten(total: int): Pager {
    Pager(0, total, false, false)
  }

  /** The view as intended: the buttons start as `_update_message` would set
      them on the first page. */
  function Open(total: int): (p: Pager)
    ensures p == Refreshed(0, total)
  {
    Refreshed(0, total)
  }

  /** As written, Previous on the first page is live and moves to page -1,
      where it stays enabled and the page shows no rows. */
  lemma PreviousFromFirstPageAsWritten<T>(rows: seq<T>)
    requires |rows| > 0
    ensures var p := Press(OpenAsWritten(TotalPages(|rows|)), true);
            p.Some? && p.value.page == -1 && !p.value.previousDisabled
            && PageRows(rows, p.value.page) == []
  {
  }

  /** The page is a real page and each button is disabled exactly when
      pressing it would leave the pages. */
  predicate InRange(p: Pager) {
    0 <= p.page < p.total && p == Refreshed(p.page, p.total)
  }

  /** As intended, whatever the presses, the page stays a counted page. */
  lemma {:induction false} PressesStayInRange(p: Pager, presses: seq<bool>)
    requires InRange(p)
    ensures InRange(Presses(p, presses))
    decreases |presses|
  {
    if presses != [] {
      var q := Press(p, presses[0]);
      PressStaysInRange(p, presses[0]);
      PressesStayInRange(if q.Some? then q.value else p, presses[1..]);
    }
  }

  lemma PressStaysInRange(p: Pager, previous: bool)
    requires InRange(p)
    ensures Press(p, previous).Some? ==> InRange(Press(p, previous).value)
  {
  }

  /** With rows to show, the view opens in range. */
  lemma OpenInRange(n: nat)
    requires n > 0
    ensures InRange(Open(TotalPages(n)))
  {
  }

  /** `PaginatorView`: the rows to page through and the page shown, with the
      two buttons. */
  class PaginatorView {
    var rows: seq<Row>
    var currentPage: int
    var totalPages: int
    var previousDisabled: bool
    var nextDisabled: bool

    function State(): Pager
      reads this
    {
      Pager(currentPage, totalPages, previousDisabled, nextDisabled)
    }

    /** The page count is the one of the rows. */
    predicate Valid()
      reads this
    {
      totalPages == TotalPages(|rows|)
    }

    /** The rows, with day summaries when asked, on the first page. The
        buttons start as on the first page (see `OpenAsWritten` for the
        source's start). */
    constructor(trades: seq<BotTrade>, showSummaries: bool)
      ensures rows == if showSummaries then Summarized(trades) else TradeRows(trades)
      ensures Valid()
      ensures State() == Open(totalPages)
    {
      var processed: seq<Row>;
      if showSummaries {
        processed := ProcessTradesWithSummaries(trades);
      } else {
        processed := TradeRows(trades);
      }
      rows := processed;
      currentPage := 0;
      totalPages := TotalPages(|processed|);
      previousDisabled := true;
      nextDisabled := 0 >= TotalPages(|processed|) - 1;
    }

    /** The Previous button: one page back, then refresh the buttons. */
    method PreviousPage()
      requires Valid()
      requires !previousDisabled
      modifies this
      ensures Valid() && rows == old(rows)
      ensures Some(State()) == Press(old(State()), true)
    {
      currentPage := currentPage - 1;
      UpdateButtons();
    }

    /** The Next button: one page on, then refresh the buttons. */
    method NextPage()
      requires Valid()
      requires !nextDisabled
      modifies this
      ensures Valid() && rows == old(rows)
      ensures Some(State()) == Press(old(State()), false)
    {
      currentPage := currentPage + 1;
      UpdateButtons();
    }

    /** The button part of `_update_message`. */
    method UpdateButtons()
      modifies this
      ensures rows == old(rows) && currentPage == old(currentPage) && totalPages == old(totalPages)
      ensures State() == Refreshed(currentPage, totalPages)
    {
      previousDisabled := currentPage == 0;
      nextDisabled := currentPage >= totalPages - 1;
    }

    /** The rows drawn for the page shown. */
    method ShownRows() returns (page: seq<Row>)
      requires Valid()
      ensures page == PageRows(rows, currentPage)
      ensures InRange(State()) ==> 0 < |page| <= PerPage
    {
      var start := currentPage * PerPage;
      page := PySlice(rows, start, start + PerPage);
      if InRange(State()) {
        PageSize(rows, currentPage);
      }
    }
  }
}
