/** The two trade-classification rules of the repository. The live ingestor
    (ingestor.py) and the historical backfill (backfill.py) each decide on their
    own whether a print is a dark-pool block or a large lit trade; the rules
    agree on lit trades and disagree on blocks. */
module Classifier {
  import opened Wrappers

  /** Exchange code under which trade-reporting-facility (dark pool) prints appear. */
  const DarkPoolExchange := 4

  const LiveBlockMinValue: real := 1_000_000.0
  const LiveLitMinValue: real := 10_000_000.0

  const BackfillBlockMinQuantity := 10_000
  const BackfillBlockMinValue: real := 200_000.0
  const BackfillLitMinValue: real := 10_000_000.0

  datatype Verdict = Block | Lit | Neither

  // ---- live rule (ingestor.py:84 and 100) ----

  /** Exchange 4 and a facility id present. */
  predicate LiveDarkPool(exchange: Option<int>, trfId: Option<int>) {
    exchange == Some(DarkPoolExchange) && trfId.Some?
  }

  predicate LiveIsBlock(exchange: Option<int>, trfId: Option<int>, value: real) {
    LiveDarkPool(exchange, trfId) && value >= LiveBlockMinValue
  }

  predicate LiveIsLit(exchange: Option<int>, trfId: Option<int>, value: real) {
    !LiveDarkPool(exchange, trfId) && value >= LiveLitMinValue
  }

  /** Which table the live worker writes a considered trade to (the `if` /
      `elif` of ingestor.py:84-113). */
  function LiveVerdict(exchange: Option<int>, trfId: Option<int>, value: real): (v: Verdict)
  {
    if LiveIsBlock(exchange, trfId, value) then Block
    else if LiveIsLit(exchange, trfId, value) then Lit
    else Neither
  }

  /** The live verdict is exactly the two predicates, and a dark-pool print below
      the block floor is never stored as lit, whatever its value. */
  lemma LiveVerdictMeaning(exchange: Option<int>, trfId: Option<int>, value: real)
    ensures LiveVerdict(exchange, trfId, value) == Block <==> LiveIsBlock(exchange, trfId, value)
    ensures LiveVerdict(exchange, trfId, value) == Lit <==> LiveIsLit(exchange, trfId, value)
    ensures LiveDarkPool(exchange, trfId) && value < LiveBlockMinValue ==>
              LiveVerdict(exchange, trfId, value) == Neither
  {
  }

  // ---- backfill rule (backfill.py:93-95 and 107-109) ----

  /** Block mode keeps a trade unless `exch != 4 or trf is None or
      (qty < 10000 and val < 200000)`. */
  predicate BackfillIsBlock(exch: int, trf: Option<int>, qty: int, value: real) {
    !(exch != DarkPoolExchange || trf.None? || (qty < BackfillBlockMinQuantity && value < BackfillBlockMinValue))
  }

  /** Lit mode keeps a trade unless `(exch == 4 and trf is not None) or
      val < 10_000_000`. */
  predicate BackfillIsLit(exch: int, trf: Option<int>, value: real) {
    !((exch == DarkPoolExchange && trf.Some?) || value < BackfillLitMinValue)
  }

  // ---- how the two rules relate ----

  /** Every live block is a backfill block. */
  lemma LiveBlockIsBackfillBlock(exch: int, trf: Option<int>, qty: int, value: real)
    requires LiveIsBlock(Some(exch), trf, value)
    ensures BackfillIsBlock(exch, trf, qty, value)
  {
  }

  /** The exact disagreement on blocks: the backfill keeps and the live worker
      drops precisely the dark-pool prints under $1,000,000 that reach 10,000
      shares or $200,000. */
  lemma BlockRulesDiffer(exch: int, trf: Option<int>, qty: int, value: real)
    ensures (BackfillIsBlock(exch, trf, qty, value) && !LiveIsBlock(Some(exch), trf, value))
        <==> (exch == DarkPoolExchange && trf.Some? && value < LiveBlockMinValue
              && (qty >= BackfillBlockMinQuantity || value >= BackfillBlockMinValue))
    ensures !(LiveIsBlock(Some(exch), trf, value) && !BackfillIsBlock(exch, trf, qty, value))
  {
  }

  /** On lit trades the two rules agree for every trade that has an exchange. */
  lemma LitRulesAgree(exch: int, trf: Option<int>, value: real)
    ensures BackfillIsLit(exch, trf, value) <==> LiveIsLit(Some(exch), trf, value)
  {
  }

  /** A concrete print on which they disagree: 10,000 shares at $25 through a
      facility ($250,000) is a block for the backfill and dropped live. */
  lemma BlockDisagreementExample()
    ensures BackfillIsBlock(4, Some(202), 10_000, 250_000.0)
    ensures LiveVerdict(Some(4), Some(202), 250_000.0) == Neither
  {
  }
}
