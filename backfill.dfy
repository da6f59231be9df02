/** The historical backfill (backfill.py): for each ticker of the tickers file,
    clear the ticker's rows in the date window, then walk the provider's pages
    and store the trades the backfill rule keeps, in block or lit mode. */
module Backfill {
  import opened Wrappers
  import opened Text
  import opened Classifier
  import opened Tables
  import opened Provider
  import opened Seqs

  /** `--mode`, restricted by the argument parser to 'block' or 'lit'. */
  datatype Mode = BlockMode | LitMode

  /** `all([qty, pr, ts_ns, exch is not None])`. */
  predicate Eligible(t: HistTrade) {
    TruthyInt(t.size) && TruthyReal(t.price) && TruthyInt(t.participantTimestamp) && t.exchange.Some?
  }

  function Qty(t: HistTrade): int { t.size.GetOr(0) }
  function Pr(t: HistTrade): real { t.price.GetOr(0.0) }

  /** `val = qty * pr`. */
  function Val(t: HistTrade): real { Qty(t) as real * Pr(t) }

  predicate KeptAsBlock(t: HistTrade) {
    Eligible(t) && BackfillIsBlock(t.exchange.value, t.trfId, Qty(t), Val(t))
  }

  predicate KeptAsLit(t: HistTrade) {
    Eligible(t) && BackfillIsLit(t.exchange.value, t.trfId, Val(t))
  }

  /** The `block_trades` row of a kept trade. */
  function BlockRowOf(ticker: string, t: HistTrade): BlockRow {
    BlockRow(FromNanos(t.participantTimestamp.GetOr(0)), Some(ticker), Pr(t), Qty(t), Val(t),
             t.conditions.Get([]), t.exchange.GetOr(0), t.trfId.GetOr(0), t.trfTimestamp)
  }

  /** The `lit_trades` row of a kept trade. */
  function LitRowOf(ticker: string, t: HistTrade): LitRow {
    LitRow(FromNanos(t.participantTimestamp.GetOr(0)), Some(ticker), Pr(t), Qty(t), Val(t),
           t.conditions.Get([]), t.exchange)
  }

  /** The `conditions` column of a stored row is the trade's `conditions`
      list: `[]` when the key is absent and NULL when it is `null`. */
  lemma NullConditionsStored(ticker: string, t: HistTrade)
    requires KeptAsBlock(t)
    ensures BlockRowOf(ticker, t) in StoredBlocks(ticker, [t])
    ensures BlockRowOf(ticker, t).conditions.None? <==> t.conditions.Null?
    ensures t.conditions.Absent? ==> BlockRowOf(ticker, t).conditions == Some([])
  {
    assert [t][..0] == [];
  }

  /** The `block_trades` rows that block mode stores for the trades `ts` of
      `ticker`: the rows of the kept trades, each a valid row of that ticker. */
  function StoredBlocks(ticker: string, ts: seq<HistTrade>): (rows: set<BlockRow>)
    ensures forall r | r in rows :: BlockRowValid(r) && r.ticker == Some(ticker)
  {
    if ts == [] then {}
    else
      var t := ts[|ts| - 1];
      StoredBlocks(ticker, ts[..|ts| - 1]) + (if KeptAsBlock(t) then {BlockRowOf(ticker, t)} else {})
  }

  /** The `lit_trades` rows that lit mode stores for the trades `ts` of
      `ticker`. */
  function StoredLits(ticker: string, ts: seq<HistTrade>): (rows: set<LitRow>)
    ensures forall r | r in rows :: LitRowValid(r) && r.ticker == Some(ticker)
  {
    if ts == [] then {}
    else
      var t := ts[|ts| - 1];
      StoredLits(ticker, ts[..|ts| - 1]) + (if KeptAsLit(t) then {LitRowOf(ticker, t)} else {})
  }

  /** A row is stored exactly when some trade of `ts` is kept and gives it. */
  lemma {:induction false} StoredRowsMeaning(ticker: string, ts: seq<HistTrade>)
    ensures forall t | t in ts && KeptAsBlock(t) :: BlockRowOf(ticker, t) in StoredBlocks(ticker, ts)
    ensures forall t | t in ts && KeptAsLit(t) :: LitRowOf(ticker, t) in StoredLits(ticker, ts)
    ensures forall r | r in StoredBlocks(ticker, ts) :: exists t | t in ts :: KeptAsBlock(t) && r == BlockRowOf(ticker, t)
    ensures forall r | r in StoredLits(ticker, ts) :: exists t | t in ts :: KeptAsLit(t) && r == LitRowOf(ticker, t)
  {
    if ts != [] {
      var init, last := ts[..|ts| - 1], ts[|ts| - 1];
      StoredRowsMeaning(ticker, init);
      assert ts == init + [last];
      assert forall t | t in init :: t in ts;
    }
  }

  /** Both trade tables at one moment. */
  datatype TableState = TableState(block: set<BlockRow>, lit: set<LitRow>)

  function State(tables: TradeTables): TableState
    reads tables
  {
    TableState(tables.block, tables.lit)
  }

  /** The tables after the trades `ts` of `ticker` went through the mode's
      rule: the table of the mode gains one row per kept trade, the other
      table is untouched. */
  function Store(s: TableState, ticker: string, mode: Mode, ts: seq<HistTrade>): (r: TableState)
  {
    match mode
    case BlockMode => s.(block := s.block + StoredBlocks(ticker, ts))
    case LitMode => s.(lit := s.lit + StoredLits(ticker, ts))
  }

  /** Storing one more trade is storing it after the others. */
  lemma StoreSnoc(s: TableState, ticker: string, mode: Mode, ts: seq<HistTrade>, t: HistTrade)
    ensures mode == BlockMode ==>
              Store(s, ticker, mode, ts + [t]).block
                == Store(s, ticker, mode, ts).block + (if KeptAsBlock(t) then {BlockRowOf(ticker, t)} else {})
              && Store(s, ticker, mode, ts + [t]).lit == s.lit
    ensures mode == LitMode ==>
              Store(s, ticker, mode, ts + [t]).lit
                == Store(s, ticker, mode, ts).lit + (if KeptAsLit(t) then {LitRowOf(ticker, t)} else {})
              && Store(s, ticker, mode, ts + [t]).block == s.block
  {
    assert (ts + [t])[..|ts|] == ts;
  }

  /** The pages `backfill_data` stores, from the i-th url of the chain on: it
      stops at a failed request, at a page without results, or after a page
      without `next_url`. */
  function VisitedPages(h: History, i: nat): (ps: seq<Page>)
    ensures forall k | 0 <= k < |ps| :: ps[k].results != []
    ensures forall k | 0 <= k < |ps| - 1 :: ps[k].hasNext
    decreases |h.pages| - i
  {
    if FailuresAt(h, i) > 0 || PageAt(h, i).results == [] then []
    else [PageAt(h, i)] + (if PageAt(h, i).hasNext then VisitedPages(h, i + 1) else [])
  }

  /** The first `i` urls of the chain were each answered at the first
      request with results and a `next_url`. */
  predicate Followed(h: History, i: nat) {
    i <= |h.pages|
    && forall k | 0 <= k < i :: FailuresAt(h, k) == 0 && h.pages[k].results != [] && h.pages[k].hasNext
  }

  lemma FollowedExtends(h: History, i: nat)
    requires Followed(h, i)
    requires FailuresAt(h, i) == 0 && PageAt(h, i).results != [] && PageAt(h, i).hasNext
    ensures Followed(h, i + 1)
  {
  }

  /** A url answered at the first request with results and a `next_url`
      contributes its page and hands over to the next url. */
  lemma VisitedStep(h: History, j: nat)
    requires j < |h.pages| && FailuresAt(h, j) == 0 && h.pages[j].results != [] && h.pages[j].hasNext
    ensures VisitedPages(h, j) == [h.pages[j]] + VisitedPages(h, j + 1)
  {
  }

  /** Along a followed prefix, the visited pages are that prefix and then what
      is visited from its end. */
  lemma {:induction false} FollowedPrefix(h: History, j: nat, i: nat)
    requires j <= i && Followed(h, i)
    ensures VisitedPages(h, j) == h.pages[j..i] + VisitedPages(h, i)
    decreases i - j
  {
    if j < i {
      FollowedPrefix(h, j + 1, i);
      VisitedStep(h, j);
      ConsSlice(h.pages, j, i);
      Associate([h.pages[j]], h.pages[j + 1..i], VisitedPages(h, i));
    } else {
      assert h.pages[j..i] == [];
    }
  }

  /** Where the chain stops: at a failed or empty answer nothing more is
      visited; after a page without `next_url` that page is the last. */
  lemma ChainStopsAt(h: History, i: nat)
    requires Followed(h, i)
    ensures FailuresAt(h, i) > 0 || PageAt(h, i).results == [] ==> VisitedPages(h, 0) == h.pages[..i]
    ensures !(FailuresAt(h, i) > 0 || PageAt(h, i).results == []) && !PageAt(h, i).hasNext ==>
              VisitedPages(h, 0) == h.pages[..i] + [PageAt(h, i)]
  {
    FollowedPrefix(h, 0, i);
    assert h.pages[0..i] == h.pages[..i];
  }

  /** A url answered at the first request with results adds its page to the
      followed prefix: the chain goes on with the next url, or ends with it. */
  lemma ChainAdvances(h: History, i: nat)
    requires Followed(h, i) && FailuresAt(h, i) == 0 && PageAt(h, i).results != []
    ensures i < |h.pages| && h.pages[..i] + [PageAt(h, i)] == h.pages[..i + 1]
    ensures PageAt(h, i).hasNext ==> Followed(h, i + 1)
    ensures !PageAt(h, i).hasNext ==> VisitedPages(h, 0) == h.pages[..i] + [PageAt(h, i)]
  {
    TakeOneMore(h.pages, i);
    ChainStopsAt(h, i);
    if PageAt(h, i).hasNext {
      FollowedExtends(h, i);
    }
  }

  /** How many of the pages carried a `next_url`. */
  function FollowedLinks(ps: seq<Page>): (n: nat)
    ensures n <= |ps|
    ensures n == 0 <==> forall k | 0 <= k < |ps| :: !ps[k].hasNext
    ensures n == |ps| <==> forall k | 0 <= k < |ps| :: ps[k].hasNext
  {
    if ps == [] then 0
    else FollowedLinks(ps[..|ps| - 1]) + (if ps[|ps| - 1].hasNext then 1 else 0)
  }

  lemma FollowedLinksSnoc(ps: seq<Page>, p: Page)
    ensures FollowedLinks(ps + [p]) == FollowedLinks(ps) + (if p.hasNext then 1 else 0)
  {
    assert (ps + [p])[..|ps|] == ps;
  }

  /** What one `backfill_data(ticker, ..., mode)` call leaves in the tables. */
  function Backfilled(s: TableState, ticker: string, mode: Mode, h: History): TableState
  {
    Store(s, ticker, mode, Trades(VisitedPages(h, 0)))
  }

  /** The per-trade body of the insert loop; `affected` is `cur.rowcount`,
      false for a trade the rule skips. */
  method StoreTrade(tables: TradeTables, ticker: string, mode: Mode, t: HistTrade) returns (affected: bool)
    modifies tables
    ensures mode == BlockMode ==>
              tables.block == old(tables.block) + (if KeptAsBlock(t) then {BlockRowOf(ticker, t)} else {})
              && tables.lit == old(tables.lit)
    ensures mode == LitMode ==>
              tables.lit == old(tables.lit) + (if KeptAsLit(t) then {LitRowOf(ticker, t)} else {})
              && tables.block == old(tables.block)
    ensures |tables.block| + |tables.lit| == |old(tables.block)| + |old(tables.lit)| + (if affected then 1 else 0)
    ensures old(tables.Valid()) ==> tables.Valid()
  {
    affected := false;
    if !Eligible(t) {
      return;
    }
    var qty, pr, exch := t.size.value, t.price.value, t.exchange.value;
    var val := qty as real * pr;
    if mode == BlockMode {
      if exch != 4 || t.trfId.None? || (qty < 10000 && val < 200000.0) {
        assert !KeptAsBlock(t);
        return;
      }
      assert KeptAsBlock(t) && BlockRowValid(BlockRowOf(ticker, t));
      affected := tables.InsertBlock(BlockRowOf(ticker, t));
    } else {
      if (exch == 4 && t.trfId.Some?) || val < 10_000_000.0 {
        assert !KeptAsLit(t);
        return;
      }
      assert KeptAsLit(t) && LitRowValid(LitRowOf(ticker, t));
      affected := tables.InsertLit(LitRowOf(ticker, t));
    }
  }

  /** The insert of one more result of a page, after the trades `done`. */
  method StoreNext(tables: TradeTables, ticker: string, mode: Mode, t: HistTrade,
                   ghost s0: TableState, ghost done: seq<HistTrade>)
    returns (affected: bool)
    requires tables.Valid() && State(tables) == Store(s0, ticker, mode, done)
    modifies tables
    ensures tables.Valid()
    ensures State(tables) == Store(s0, ticker, mode, done + [t])
    ensures |tables.block| + |tables.lit| == |old(tables.block)| + |old(tables.lit)| + (if affected then 1 else 0)
  {
    affected := StoreTrade(tables, ticker, mode, t);
    StoreSnoc(s0, ticker, mode, done, t);
  }

  /** The insert loop over one page's results, committed as one transaction;
      gives `saved_this_page`. */
  method StorePage(tables: TradeTables, ticker: string, mode: Mode, results: seq<HistTrade>,
                   ghost s0: TableState, ghost before: seq<HistTrade>)
    returns (savedThisPage: nat)
    requires State(tables) == Store(s0, ticker, mode, before) && tables.Valid()
    modifies tables
    ensures State(tables) == Store(s0, ticker, mode, before + results)
    ensures |tables.block| + |tables.lit| == |old(tables.block)| + |old(tables.lit)| + savedThisPage
    ensures savedThisPage <= |results|
    ensures tables.Valid()
  {
    ghost var n0 := |tables.block| + |tables.lit|;
    ghost var done := before;
    savedThisPage := 0;
    var j := 0;
    while j < |results|
      invariant 0 <= j <= |results|
      invariant done == before + results[..j]
      invariant State(tables) == Store(s0, ticker, mode, done)
      invariant |tables.block| + |tables.lit| == n0 + savedThisPage
      invariant savedThisPage <= j
      invariant tables.Valid()
    {
      var affected := StoreNext(tables, ticker, mode, results[j], s0, done);
      if affected {
        savedThisPage := savedThisPage + 1;
      }
      AppendSlice(before, results, j);
      done := done + [results[j]];
      j := j + 1;
    }
    assert results[..j] == results;
  }

  /** One pass of the `while` loop over a url answered at the first request
      with results: store its page, and follow its `next_url` if it has one. */
  method TakePage(tables: TradeTables, ticker: string, mode: Mode, h: History, i: nat, ghost s0: TableState)
    returns (savedThisPage: nat)
    requires Followed(h, i) && FailuresAt(h, i) == 0 && PageAt(h, i).results != []
    requires tables.Valid()
    requires State(tables) == Store(s0, ticker, mode, Trades(h.pages[..i]))
    modifies tables
    ensures i < |h.pages|
    ensures tables.Valid()
    ensures State(tables) == Store(s0, ticker, mode, Trades(h.pages[..i + 1]))
    ensures |tables.block| + |tables.lit| == |old(tables.block)| + |old(tables.lit)| + savedThisPage
    ensures savedThisPage <= |PageAt(h, i).results|
    ensures |Trades(h.pages[..i + 1])| == |Trades(h.pages[..i])| + |PageAt(h, i).results|
    ensures FollowedLinks(h.pages[..i + 1]) == FollowedLinks(h.pages[..i]) + (if PageAt(h, i).hasNext then 1 else 0)
    ensures PageAt(h, i).hasNext ==> Followed(h, i + 1)
    ensures !PageAt(h, i).hasNext ==> VisitedPages(h, 0) == h.pages[..i + 1]
  {
    var page := PageAt(h, i);
    ChainAdvances(h, i);
    savedThisPage := StorePage(tables, ticker, mode, page.results, s0, Trades(h.pages[..i]));
    TradesSnoc(h.pages[..i], page);
    FollowedLinksSnoc(h.pages[..i], page);
  }

  /** `backfill_data`: walk the page chain and store what the rule keeps.
      Gives the final `page_count`, `total_downloaded` and `total_saved`. */
  method BackfillData(tables: TradeTables, ticker: string, mode: Mode, h: History)
    returns (pageCount: nat, downloaded: nat, saved: nat)
    requires tables.Valid()
    modifies tables
    ensures State(tables) == Backfilled(old(State(tables)), ticker, mode, h)
    ensures pageCount == 1 + FollowedLinks(VisitedPages(h, 0))
    ensures downloaded == |Trades(VisitedPages(h, 0))|
    ensures saved == |tables.block| + |tables.lit| - |old(tables.block)| - |old(tables.lit)|
    ensures saved <= downloaded
    ensures tables.Valid()
  {
    ghost var s0 := State(tables);
    ghost var n0 := |tables.block| + |tables.lit|;
    pageCount, downloaded, saved := 1, 0, 0;
    var i: nat := 0;
    while true
      invariant Followed(h, i)
      invariant pageCount == 1 + FollowedLinks(h.pages[..i])
      invariant downloaded == |Trades(h.pages[..i])|
      invariant State(tables) == Store(s0, ticker, mode, Trades(h.pages[..i]))
      invariant saved == |tables.block| + |tables.lit| - n0 <= downloaded
      invariant tables.Valid()
      decreases |h.pages| - i
    {
      if FailuresAt(h, i) > 0 || PageAt(h, i).results == [] {
        // the request raised, or the page holds no results: stop
        ChainStopsAt(h, i);
        return;
      }
      downloaded := downloaded + |PageAt(h, i).results|;
      var savedThisPage := TakePage(tables, ticker, mode, h, i, s0);
      saved := saved + savedThisPage;
      if !PageAt(h, i).hasNext {
        return;
      }
      pageCount := pageCount + 1;
      i := i + 1;
    }
  }

  /** One ticker of the run: clear its window rows in the mode's table, then
      backfill it. */
  method BackfillTicker(tables: TradeTables, ticker: string, mode: Mode, h: History, inWindow: TradeTime -> bool)
    requires IsAlnum(ticker) && tables.Valid()
    modifies tables
    ensures State(tables) == RunTicker(old(State(tables)), ticker, mode, h, inWindow)
    ensures tables.Valid()
  {
    if mode == BlockMode {
      tables.ClearBlockWindow(ticker, inWindow);
    } else {
      tables.ClearLitWindow(ticker, inWindow);
    }
    var _, _, _ := BackfillData(tables, ticker, mode, h);
  }

  /** Re-inserting a trade that is already stored adds nothing. */
  lemma StoreTwiceSame(s: TableState, ticker: string, mode: Mode, ts: seq<HistTrade>)
    ensures Store(Store(s, ticker, mode, ts), ticker, mode, ts) == Store(s, ticker, mode, ts)
  {
  }

  // ---- the tickers file and the run over it (`__main__`) ----

  /** `[line.strip().upper() for line in f if line.strip()]`. */
  function TickerList(lines: seq<string>): (ts: seq<string>)
    ensures |ts| == |NonBlank(lines)| <= |lines|
  {
    if lines == [] then []
    else
      var rest := TickerList(lines[..|lines| - 1]);
      var last := Strip(lines[|lines| - 1]);
      if last == "" then rest else rest + [Upper(last)]
  }

  /** A ticker made from a non-blank line: upper case, non-empty and without
      whitespace at either end. */
  predicate WellFormedTicker(t: string) {
    t != "" && !IsSpace(t[0]) && !IsSpace(t[|t| - 1]) && forall i | 0 <= i < |t| :: !IsLower(t[i])
  }

  lemma TickerOfLine(line: string)
    requires Strip(line) != ""
    ensures WellFormedTicker(Upper(Strip(line)))
  {
    StripShape(line);
    UpperIdempotent(Strip(line));
  }

  /** The list holds one ticker per non-blank line, each well formed. */
  lemma {:induction false} TickerListShape(lines: seq<string>)
    ensures |TickerList(lines)| == |NonBlank(lines)|
    ensures forall t | t in TickerList(lines) :: WellFormedTicker(t)
  {
    if lines != [] {
      var init := lines[..|lines| - 1];
      TickerListShape(init);
      var last := Strip(lines[|lines| - 1]);
      if last != "" {
        TickerOfLine(lines[|lines| - 1]);
      }
    }
  }

  /** The lines that are not all whitespace. */
  function NonBlank(lines: seq<string>): (r: seq<string>)
    ensures |r| <= |lines|
    ensures forall l | l in r :: l in lines && Strip(l) != ""
    ensures forall l | l in lines && Strip(l) != "" :: l in r
  {
    if lines == [] then []
    else
      var rest := NonBlank(lines[..|lines| - 1]);
      if Strip(lines[|lines| - 1]) == "" then rest else rest + [lines[|lines| - 1]]
  }

  /** The tables after one ticker of the run: nothing for a ticker that is not
      alphanumeric; otherwise its window rows are cleared in the mode's table
      and the backfill runs. */
  function RunTicker(s: TableState, ticker: string, mode: Mode, h: History, inWindow: TradeTime -> bool)
    : (r: TableState)
    ensures !IsAlnum(ticker) ==> r == s
    ensures mode == BlockMode ==> r.lit == s.lit
    ensures mode == LitMode ==> r.block == s.block
  {
    if !IsAlnum(ticker) then s
    else
      var cleared := match mode
        case BlockMode => s.(block := ClearBlocks(s.block, ticker, inWindow))
        case LitMode => s.(lit := ClearLits(s.lit, ticker, inWindow));
      Backfilled(cleared, ticker, mode, h)
  }

  /** The tables after the run over `tickers`, one after the other. */
  function RunAll(s: TableState, tickers: seq<string>, mode: Mode, history: string -> History,
                  inWindow: TradeTime -> bool): (r: TableState)
    ensures mode == BlockMode ==> r.lit == s.lit
    ensures mode == LitMode ==> r.block == s.block
  {
    if tickers == [] then s
    else RunTicker(RunAll(s, tickers[..|tickers| - 1], mode, history, inWindow),
                   tickers[|tickers| - 1], mode, history(tickers[|tickers| - 1]), inWindow)
  }

  /** The run touches no row of a ticker that is not in the list: such rows are
      neither cleared nor added. */
  lemma {:induction false} RunLeavesOtherTickers(s: TableState, tickers: seq<string>, mode: Mode,
                                                 history: string -> History, inWindow: TradeTime -> bool,
                                                 b: BlockRow, l: LitRow)
    requires b.ticker.None? || b.ticker.value !in tickers
    requires l.ticker.None? || l.ticker.value !in tickers
    ensures b in RunAll(s, tickers, mode, history, inWindow).block <==> b in s.block
    ensures l in RunAll(s, tickers, mode, history, inWindow).lit <==> l in s.lit
  {
    if tickers != [] {
      var init := tickers[..|tickers| - 1];
      var t := tickers[|tickers| - 1];
      assert forall x | x in init :: x in tickers;
      RunLeavesOtherTickers(s, init, mode, history, inWindow, b, l);
      var before := RunAll(s, init, mode, history, inWindow);
      if IsAlnum(t) {
        var cleared := match mode
          case BlockMode => before.(block := ClearBlocks(before.block, t, inWindow))
          case LitMode => before.(lit := ClearLits(before.lit, t, inWindow));
      }
    }
  }

  /** Backfilling a ticker twice in a row leaves what backfilling it once left,
      provided every trade the provider returns for it lies in the cleared
      window (the query asks for exactly that window). */
  lemma RerunTickerSame(s: TableState, ticker: string, mode: Mode, h: History, inWindow: TradeTime -> bool)
    requires forall t | t in Trades(VisitedPages(h, 0)) :: inWindow(FromNanos(t.participantTimestamp.GetOr(0)))
    ensures RunTicker(RunTicker(s, ticker, mode, h, inWindow), ticker, mode, h, inWindow)
         == RunTicker(s, ticker, mode, h, inWindow)
  {
    if IsAlnum(ticker) {
      var ts := Trades(VisitedPages(h, 0));
      var added, addedLit := StoredBlocks(ticker, ts), StoredLits(ticker, ts);
      StoredRowsMeaning(ticker, ts);
      assert forall r | r in added :: inWindow(r.time);
      assert forall r | r in addedLit :: inWindow(r.time);
      var c := ClearBlocks(s.block, ticker, inWindow);
      assert ClearBlocks(c + added, ticker, inWindow) == c;
      var cl := ClearLits(s.lit, ticker, inWindow);
      assert ClearLits(cl + addedLit, ticker, inWindow) == cl;
    }
  }

  datatype RunError = MissingApiKey | TickersFileMissing

  /** The tickers of the list that the run backfills, in order: the
      alphanumeric ones. */
  function Backfillable(tickers: seq<string>): (ts: seq<string>)
    ensures forall t :: t in ts <==> t in tickers && IsAlnum(t)
    ensures |ts| <= |tickers|
  {
    if tickers == [] then []
    else
      var n := |tickers| - 1;
      assert tickers == tickers[..n] + [tickers[n]];
      Backfillable(tickers[..n]) + (if IsAlnum(tickers[n]) then [tickers[n]] else [])
  }

  /** The body of the `for` loop of `__main__`: a ticker that is not
      alphanumeric is skipped, any other is backfilled. */
  method VisitTicker(tables: TradeTables, ticker: string, mode: Mode, h: History, inWindow: TradeTime -> bool)
    returns (backfilled: bool)
    requires tables.Valid()
    modifies tables
    ensures backfilled == IsAlnum(ticker)
    ensures State(tables) == RunTicker(old(State(tables)), ticker, mode, h, inWindow)
    ensures tables.Valid()
  {
    backfilled := IsAlnum(ticker);
    if backfilled {
      BackfillTicker(tables, ticker, mode, h, inWindow);
    }
  }

  /** One more ticker of the list: the run goes on from where it was. */
  lemma RunSnoc(s0: TableState, ts: seq<string>, t: string, mode: Mode,
                history: string -> History, inWindow: TradeTime -> bool, post: TableState)
    requires post == RunTicker(RunAll(s0, ts, mode, history, inWindow), t, mode, history(t), inWindow)
    ensures post == RunAll(s0, ts + [t], mode, history, inWindow)
  {
    assert (ts + [t])[..|ts|] == ts;
  }

  lemma BackfillableSnoc(ts: seq<string>, t: string)
    ensures Backfillable(ts + [t]) == Backfillable(ts) + (if IsAlnum(t) then [t] else [])
  {
    assert (ts + [t])[..|ts|] == ts;
  }

  /** The `for` loop of `__main__` over the tickers. Gives the tickers that
      were backfilled. */
  method RunTickers(tables: TradeTables, tickers: seq<string>, mode: Mode,
                    history: string -> History, inWindow: TradeTime -> bool)
    returns (done: seq<string>)
    requires tables.Valid()
    modifies tables
    ensures done == Backfillable(tickers)
    ensures State(tables) == RunAll(old(State(tables)), tickers, mode, history, inWindow)
    ensures tables.Valid()
  {
    ghost var s0 := State(tables);
    ghost var run: seq<string> := [];
    done := [];
    var k := 0;
    while k < |tickers|
      invariant 0 <= k <= |tickers| && run == tickers[..k]
      invariant State(tables) == RunAll(s0, run, mode, history, inWindow)
      invariant done == Backfillable(run)
      invariant tables.Valid()
    {
      var ticker := tickers[k];
      var backfilled := VisitTicker(tables, ticker, mode, history(ticker), inWindow);
      if backfilled {
        done := done + [ticker];
      }
      BackfillableSnoc(run, ticker);
      RunSnoc(s0, run, ticker, mode, history, inWindow, State(tables));
      run := run + [ticker];
      k := k + 1;
    }
    assert tickers[..k] == tickers;
  }

  /** The `__main__` block: check the key, read the tickers file (`None` when
      it is missing), and run the backfill ticker by ticker, skipping the
      ones that are not alphanumeric. Gives the tickers that were backfilled. */
  method RunBackfill(tables: TradeTables, apiKeySet: bool, lines: Option<seq<string>>, mode: Mode,
                     history: string -> History, inWindow: TradeTime -> bool)
    returns (r: Result<seq<string>, RunError>)
    requires tables.Valid()
    modifies tables
    ensures !apiKeySet ==> r == Err(MissingApiKey)
    ensures apiKeySet && lines.None? ==> r == Err(TickersFileMissing)
    ensures r.Err? ==> State(tables) == old(State(tables))
    ensures apiKeySet && lines.Some? ==>
              r.Ok? && (forall t | t in r.value :: IsAlnum(t) && t in TickerList(lines.value))
              && r.value == Backfillable(TickerList(lines.value))
              && State(tables) == RunAll(old(State(tables)), TickerList(lines.value), mode, history, inWindow)
    ensures tables.Valid()
  {
    if !apiKeySet {
      return Err(MissingApiKey);
    }
    if lines.None? {
      return Err(TickersFileMissing);
    }
    var done := RunTickers(tables, TickerList(lines.value), mode, history, inWindow);
    return Ok(done);
  }
}
