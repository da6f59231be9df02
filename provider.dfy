/** The historical trades endpoint as both the backfill and the volume walker
    see it: a chain of result pages, each naming the next through `next_url`,
    where a request can fail before it is answered. */
module Provider {
  import opened Wrappers

  /** One trade of a result page; every field may be missing. `conditions` is
      read with a default, so an absent key and a `null` differ. */
  datatype HistTrade = HistTrade(
    size: Option<int>, price: Option<real>, participantTimestamp: Option<int>,
    exchange: Option<int>, trfId: Option<int>, trfTimestamp: Option<int>,
    conditions: Field<seq<int>>)

  /** A response: its `results` (missing results read as none) and whether it
      carries a `next_url`. */
  datatype Page = Page(results: seq<HistTrade>, hasNext: bool)

  /** What the provider answers. `pages[i]` answers the i-th url of the chain
      (the first url, then each `next_url` in turn), and `failures[i]` requests
      for the i-th url fail before one is answered. Past the end of `pages`
      every url answers an empty page; past the end of `failures` no request
      fails. */
  datatype History = History(pages: seq<Page>, failures: seq<nat>)

  function PageAt(h: History, i: nat): Page {
    if i < |h.pages| then h.pages[i] else Page([], false)
  }

  function FailuresAt(h: History, i: nat): nat {
    if i < |h.failures| then h.failures[i] else 0
  }

  /** Python truthiness of an optional number: present and not zero. */
  predicate TruthyInt(x: Option<int>) { x.Some? && x.value != 0 }
  predicate TruthyReal(x: Option<real>) { x.Some? && x.value != 0.0 }

  /** The trades of a run of pages, page after page. */
  function Trades(ps: seq<Page>): seq<HistTrade>
  {
    if ps == [] then [] else Trades(ps[..|ps| - 1]) + ps[|ps| - 1].results
  }

  lemma TradesSnoc(ps: seq<Page>, p: Page)
    ensures Trades(ps + [p]) == Trades(ps) + p.results
  {
    assert (ps + [p])[..|ps|] == ps;
  }
}
