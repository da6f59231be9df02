/** The two trade tables, `block_trades` and `lit_trades`. Every insert is
    `INSERT ... ON CONFLICT DO NOTHING`, so a table behaves as a set of rows:
    storing a row that is already there changes nothing and affects no row. */
module Tables {
  import opened Wrappers
  import Classifier

  /** The stored `trade_time`. The live feed gives milliseconds and the
      historical provider nanoseconds; the conversion to a timestamp is not
      modelled, so the row keeps the source field with its unit. */
  datatype TradeTime = FromMillis(ms: int) | FromNanos(ns: int)

  /** A row of either table; a `conditions` of `None` is SQL NULL. */

  datatype BlockRow = BlockRow(
    time: TradeTime, ticker: Option<string>, price: real, quantity: int, value: real,
    conditions: Option<seq<int>>, exchange: int, trfId: int, trfTimestamp: Option<int>)

  datatype LitRow = LitRow(
    time: TradeTime, ticker: Option<string>, price: real, quantity: int, value: real,
    conditions: Option<seq<int>>, exchange: Option<int>)

  /** What both writers guarantee about a stored block row: it came through the
      dark-pool exchange, its value is quantity times price, and it meets at
      least the looser backfill floor (10,000 shares or $200,000). */
  predicate BlockRowValid(r: BlockRow) {
    r.exchange == Classifier.DarkPoolExchange
    && r.value == r.quantity as real * r.price
    && (r.quantity >= Classifier.BackfillBlockMinQuantity || r.value >= Classifier.BackfillBlockMinValue)
  }

  /** What both writers guarantee about a stored lit row: value is quantity
      times price and at least $10,000,000. */
  predicate LitRowValid(r: LitRow) {
    r.value == r.quantity as real * r.price && r.value >= Classifier.LiveLitMinValue
  }

  /** `block_trades` without the rows of `ticker` whose time falls in the
      window (the backfill's `DELETE ... WHERE ticker = %s AND trade_time` in
      the window). */
  function ClearBlocks(rows: set<BlockRow>, ticker: string, inWindow: TradeTime -> bool): (r: set<BlockRow>)
    ensures r <= rows
    ensures forall x | x in rows :: x in r <==> !(x.ticker == Some(ticker) && inWindow(x.time))
  {
    set x | x in rows && !(x.ticker == Some(ticker) && inWindow(x.time))
  }

  /** `lit_trades` without the window rows of `ticker`. */
  function ClearLits(rows: set<LitRow>, ticker: string, inWindow: TradeTime -> bool): (r: set<LitRow>)
    ensures r <= rows
    ensures forall x | x in rows :: x in r <==> !(x.ticker == Some(ticker) && inWindow(x.time))
  {
    set x | x in rows && !(x.ticker == Some(ticker) && inWindow(x.time))
  }

  class TradeTables {
    var block: set<BlockRow>
    var lit: set<LitRow>

    predicate Valid()
      reads this
    {
      (forall r | r in block :: BlockRowValid(r)) && (forall r | r in lit :: LitRowValid(r))
    }

    constructor()
      ensures block == {} && lit == {}
      ensures Valid()
    {
      block, lit := {}, {};
    }

    /** Insert into `block_trades`; `inserted` is `cur.rowcount`. */
    method InsertBlock(r: BlockRow) returns (inserted: bool)
      modifies this
      ensures old(Valid()) && BlockRowValid(r) ==> Valid()
      ensures block == old(block) + {r} && lit == old(lit)
      ensures inserted <==> r !in old(block)
      ensures |block| == |old(block)| + (if inserted then 1 else 0)
    {
      inserted := r !in block;
      if inserted {
        assert block + {r} - {r} == block;
      } else {
        assert block + {r} == block;
      }
      block := block + {r};
    }

    /** Delete the window rows of `ticker` from `block_trades`. */
    method ClearBlockWindow(ticker: string, inWindow: TradeTime -> bool)
      modifies this
      ensures block == ClearBlocks(old(block), ticker, inWindow) && lit == old(lit)
      ensures old(Valid()) ==> Valid()
    {
      block := ClearBlocks(block, ticker, inWindow);
    }

    /** Delete the window rows of `ticker` from `lit_trades`. */
    method ClearLitWindow(ticker: string, inWindow: TradeTime -> bool)
      modifies this
      ensures lit == ClearLits(old(lit), ticker, inWindow) && block == old(block)
      ensures old(Valid()) ==> Valid()
    {
      lit := ClearLits(lit, ticker, inWindow);
    }

    /** Insert into `lit_trades`; `inserted` is `cur.rowcount`. */
    method InsertLit(r: LitRow) returns (inserted: bool)
      modifies this
      ensures old(Valid()) && LitRowValid(r) ==> Valid()
      ensures lit == old(lit) + {r} && block == old(block)
      ensures inserted <==> r !in old(lit)
      ensures |lit| == |old(lit)| + (if inserted then 1 else 0)
    {
      inserted := r !in lit;
      if inserted {
        assert lit + {r} - {r} == lit;
      } else {
        assert lit + {r} == lit;
      }
      lit := lit + {r};
    }
  }
}
