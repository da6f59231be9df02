/** The live ingestor (ingestor.py): a websocket handler puts every raw message
    on a bounded in-memory queue, and writer workers take messages off it, parse
    each as a batch of trade events, and store the dark-pool blocks and large
    lit trades. */
module Ingestor {
  import opened Wrappers
  import opened Classifier
  import opened Tables

  /** `QUEUE_MAXSIZE`. */
  const QueueMaxSize := 100_000

  /** One event object of a feed batch. The fields read with a plain
      `trade.get(key)` are `None` whether absent or `null`, so they are
      options; `s`, `p` and `c` are read with a default, which tells an absent
      key from a `null`, so they are fields. */
  datatype FeedTrade = FeedTrade(
    ev: Option<string>, sym: Option<string>, size: Field<int>, price: Field<real>,
    exchange: Option<int>, trfId: Option<int>, trfTimestamp: Option<int>,
    timestamp: Option<int>, conditions: Field<seq<int>>)

  /** One element of a batch: an event object, or any other JSON value (a
      number, a string, a list, `null`), which has no `.get`. */
  datatype Event = Object(trade: FeedTrade) | NotAnObject

  /** A raw websocket message as the worker sees it after `json.loads`: it
      does not parse, it is a list of elements, or it is a JSON value the
      `for` loop cannot walk as events (a number, `true`/`false`, `null`, or a
      non-empty object or string, whose keys or characters have no `.get`).
      An empty object or string walks like an empty list, `Json([])`. */
  datatype RawMessage = NotJson | Json(batch: seq<Event>) | NotAList

  /** `s` and `p` default to 0 and 0.0 when absent (read only where neither
      is `null`). */
  function Quantity(t: FeedTrade): int { if t.size.Given? then t.size.v else 0 }
  function Price(t: FeedTrade): real { if t.price.Given? then t.price.v else 0.0 }

  /** `value = size * price`. */
  function Value(t: FeedTrade): real { Quantity(t) as real * Price(t) }

  /** The timestamp the row is stored under: the facility timestamp when
      present, else the trade timestamp. */
  function TimeField(t: FeedTrade): (r: Option<int>)
    ensures r.None? <==> t.trfTimestamp.None? && t.timestamp.None?
    ensures t.trfTimestamp.Some? ==> r == t.trfTimestamp
  {
    if t.trfTimestamp.Some? then t.trfTimestamp else t.timestamp
  }

  /** The element raises before the per-trade `try`: it has no `.get`, or it
      is a "T" event whose `s` or `p` is `null`, so `size * price` raises
      TypeError. The exception leaves `worker`, and the thread ends. */
  predicate Crashes(e: Event) {
    e.NotAnObject? || (e.trade.ev == Some("T") && (e.trade.size.Null? || e.trade.price.Null?))
  }

  /** The position of the first element that ends the worker, or the length
      of the batch when none does. */
  function CrashAt(batch: seq<Event>): (c: nat)
    ensures c <= |batch|
    ensures forall k | 0 <= k < c :: !Crashes(batch[k])
    ensures c < |batch| ==> Crashes(batch[c])
  {
    if batch == [] || Crashes(batch[0]) then 0
    else
      var c := CrashAt(batch[1..]);
      assert forall k | 1 <= k < 1 + c :: batch[k] == batch[1..][k - 1];
      1 + c
  }

  /** A trade event the worker classifies: event type "T" with a timestamp. */
  predicate Considered(t: FeedTrade) {
    t.ev == Some("T") && TimeField(t).Some?
  }

  predicate IsLiveBlock(t: FeedTrade) {
    Considered(t) && LiveIsBlock(t.exchange, t.trfId, Value(t))
  }

  predicate IsLiveLit(t: FeedTrade) {
    Considered(t) && LiveIsLit(t.exchange, t.trfId, Value(t))
  }

  /** The `block_trades` row of a trade (read only where `IsLiveBlock` holds,
      so the defaults never reach the table). */
  function BlockRowOf(t: FeedTrade): BlockRow {
    BlockRow(FromMillis(TimeField(t).GetOr(0)), t.sym, Price(t), Quantity(t), Value(t),
             t.conditions.Get([]), DarkPoolExchange, t.trfId.GetOr(0), t.trfTimestamp)
  }

  /** The `lit_trades` row of a trade (read only where `IsLiveLit` holds). */
  function LitRowOf(t: FeedTrade): LitRow {
    LitRow(FromMillis(TimeField(t).GetOr(0)), t.sym, Price(t), Quantity(t), Value(t),
           t.conditions.Get([]), t.exchange)
  }

  /** The element at position `i` of a batch ends up in `block_trades`: it is
      an event object that does not raise, it is a live block, and its insert
      did not raise (positions in `failing` raise and are rolled back). */
  predicate KeptBlock(i: int, e: Event, failing: set<int>) {
    e.Object? && !Crashes(e) && i !in failing && IsLiveBlock(e.trade)
  }

  predicate KeptLit(i: int, e: Event, failing: set<int>) {
    e.Object? && !Crashes(e) && i !in failing && IsLiveLit(e.trade)
  }

  /** The row of a live block or a live lit trade is one the tables accept. */
  lemma LiveRowsValid(t: FeedTrade)
    ensures IsLiveBlock(t) ==> BlockRowValid(BlockRowOf(t)) && BlockRowOf(t).value >= LiveBlockMinValue
    ensures IsLiveLit(t) ==> LitRowValid(LitRowOf(t))
  {
  }

  /** The `conditions` column of a stored row is the event's `c` list: `[]`
      when the key is absent and NULL when it is `null`. */
  lemma NullConditionsStored(t: FeedTrade, failing: set<int>)
    requires IsLiveBlock(t) && 0 !in failing
    ensures BlockRowOf(t) in StoredBlocks([Object(t)], failing)
    ensures BlockRowOf(t).conditions.None? <==> t.conditions.Null?
    ensures t.conditions.Absent? ==> BlockRowOf(t).conditions == Some([])
  {
    assert [Object(t)][..0] == [];
  }

  /** The block rows a batch stores. */
  function StoredBlocks(batch: seq<Event>, failing: set<int>): set<BlockRow>
  {
    if batch == [] then {}
    else
      var i := |batch| - 1;
      StoredBlocks(batch[..i], failing)
        + (if KeptBlock(i, batch[i], failing) then {BlockRowOf(batch[i].trade)} else {})
  }

  /** The lit rows a batch stores. */
  function StoredLits(batch: seq<Event>, failing: set<int>): set<LitRow>
  {
    if batch == [] then {}
    else
      var i := |batch| - 1;
      StoredLits(batch[..i], failing)
        + (if KeptLit(i, batch[i], failing) then {LitRowOf(batch[i].trade)} else {})
  }

  /** Handling one more element of a batch adds exactly that element's row. */
  lemma StoredStep(batch: seq<Event>, i: int, failing: set<int>)
    requires 0 <= i < |batch|
    ensures StoredBlocks(batch[..i + 1], failing)
            == StoredBlocks(batch[..i], failing) + (if KeptBlock(i, batch[i], failing) then {BlockRowOf(batch[i].trade)} else {})
    ensures StoredLits(batch[..i + 1], failing)
            == StoredLits(batch[..i], failing) + (if KeptLit(i, batch[i], failing) then {LitRowOf(batch[i].trade)} else {})
  {
    assert batch[..i + 1][..i] == batch[..i];
  }

  /** A row is stored exactly when some trade of the batch that is kept has it
      as its row; in particular every stored block row is a valid row worth at
      least $1,000,000, and every stored lit row is valid. */
  lemma {:induction false} StoredRowsMeaning(batch: seq<Event>, failing: set<int>)
    ensures forall i | 0 <= i < |batch| && KeptBlock(i, batch[i], failing) ::
              BlockRowOf(batch[i].trade) in StoredBlocks(batch, failing)
    ensures forall i | 0 <= i < |batch| && KeptLit(i, batch[i], failing) ::
              LitRowOf(batch[i].trade) in StoredLits(batch, failing)
    ensures forall r | r in StoredBlocks(batch, failing) ::
              exists i :: 0 <= i < |batch| && KeptBlock(i, batch[i], failing) && r == BlockRowOf(batch[i].trade)
    ensures forall r | r in StoredLits(batch, failing) ::
              exists i :: 0 <= i < |batch| && KeptLit(i, batch[i], failing) && r == LitRowOf(batch[i].trade)
    ensures forall r | r in StoredBlocks(batch, failing) :: BlockRowValid(r) && r.value >= LiveBlockMinValue
    ensures forall r | r in StoredLits(batch, failing) :: LitRowValid(r)
  {
    StoredBlocksMeaning(batch, failing);
    StoredLitsMeaning(batch, failing);
  }

  /** The block half of StoredRowsMeaning. */
  lemma {:induction false} StoredBlocksMeaning(batch: seq<Event>, failing: set<int>)
    ensures forall i | 0 <= i < |batch| && KeptBlock(i, batch[i], failing) ::
              BlockRowOf(batch[i].trade) in StoredBlocks(batch, failing)
    ensures forall r | r in StoredBlocks(batch, failing) ::
              exists i :: 0 <= i < |batch| && KeptBlock(i, batch[i], failing) && r == BlockRowOf(batch[i].trade)
    ensures forall r | r in StoredBlocks(batch, failing) :: BlockRowValid(r) && r.value >= LiveBlockMinValue
  {
    if batch != [] {
      var n := |batch| - 1;
      var init := batch[..n];
      StoredBlocksMeaning(init, failing);
      if batch[n].Object? {
        LiveRowsValid(batch[n].trade);
      }
      assert forall i | 0 <= i < n :: init[i] == batch[i];
    }
  }

  /** The lit half of StoredRowsMeaning. */
  lemma {:induction false} StoredLitsMeaning(batch: seq<Event>, failing: set<int>)
    ensures forall i | 0 <= i < |batch| && KeptLit(i, batch[i], failing) ::
              LitRowOf(batch[i].trade) in StoredLits(batch, failing)
    ensures forall r | r in StoredLits(batch, failing) ::
              exists i :: 0 <= i < |batch| && KeptLit(i, batch[i], failing) && r == LitRowOf(batch[i].trade)
    ensures forall r | r in StoredLits(batch, failing) :: LitRowValid(r)
  {
    if batch != [] {
      var n := |batch| - 1;
      var init := batch[..n];
      StoredLitsMeaning(init, failing);
      if batch[n].Object? {
        LiveRowsValid(batch[n].trade);
      }
      assert forall i | 0 <= i < n :: init[i] == batch[i];
    }
  }

  /** A batch delivered twice stores, in total, what one delivery would have
      stored if only the trades that failed both times had failed: a second
      delivery adds nothing but the rows the first one lost. */
  lemma {:induction false} RedeliveryStoresUnion(batch: seq<Event>, first: set<int>, second: set<int>)
    ensures StoredBlocks(batch, first) + StoredBlocks(batch, second) == StoredBlocks(batch, first * second)
    ensures StoredLits(batch, first) + StoredLits(batch, second) == StoredLits(batch, first * second)
  {
    if batch != [] {
      RedeliveryStoresUnion(batch[..|batch| - 1], first, second);
    }
  }

  /** The bounded first-in first-out buffer between the handler and the workers
      (`Queue(maxsize=QUEUE_MAXSIZE)`). */
  class MessageQueue {
    const capacity: nat
    var items: seq<RawMessage>

    predicate Valid()
      reads this
    {
      |items| <= capacity
    }

    constructor(capacity: nat)
      ensures this.capacity == capacity && items == []
      ensures Valid()
    {
      this.capacity := capacity;
      items := [];
    }

    /** `put`: a full queue makes the caller wait, so a put happens when there
        is room. */
    method Put(m: RawMessage)
      requires Valid() && |items| < capacity
      modifies this
      ensures items == old(items) + [m]
      ensures Valid()
    {
      items := items + [m];
    }

    /** `get`: an empty queue makes the caller wait, so a get happens when there
        is a message; messages come out in the order they went in. */
    method Get() returns (m: RawMessage)
      requires Valid() && |items| > 0
      modifies this
      ensures m == old(items)[0] && items == old(items)[1..]
      ensures Valid()
    {
      m := items[0];
      items := items[1..];
    }
  }

  /** The websocket callbacks' owner (`Handler`). */
  class Handler {
    const apiKey: string
    const queue: MessageQueue
    var rawCount: nat

    constructor(apiKey: string, queue: MessageQueue)
      requires apiKey != ""
      ensures this.apiKey == apiKey && this.queue == queue && rawCount == 0
    {
      this.apiKey := apiKey;
      this.queue := queue;
      rawCount := 0;
    }

    /** `on_message`: count the message and enqueue it unparsed. */
    method OnMessage(m: RawMessage)
      requires queue.Valid() && |queue.items| < queue.capacity
      modifies this, queue
      ensures rawCount == old(rawCount) + 1
      ensures queue.items == old(queue.items) + [m] && queue.Valid()
    {
      rawCount := rawCount + 1;
      queue.Put(m);
    }
  }

  /** `Handler(api_key, queue)`: an empty key raises RuntimeError, given here
      as `None`. */
  method NewHandler(apiKey: string, queue: MessageQueue) returns (r: Option<Handler>)
    ensures r.None? <==> apiKey == ""
    ensures r.Some? ==> fresh(r.value) && r.value.apiKey == apiKey
                        && r.value.queue == queue && r.value.rawCount == 0
  {
    if apiKey == "" {
      return None;
    }
    var h := new Handler(apiKey, queue);
    return Some(h);
  }

  /** One writer thread (`worker`), with its own message counter and its
      connection to the trade tables. `alive` turns false when an exception
      escapes the loop body, which ends the thread. */
  class Worker {
    var rawCount: nat
    var alive: bool
    const tables: TradeTables

    constructor(tables: TradeTables)
      ensures this.tables == tables && rawCount == 0 && alive
    {
      this.tables := tables;
      rawCount := 0;
      alive := true;
    }

    /** One pass of the worker loop over a message that is already off the
        queue. A message that does not parse is counted and skipped. Otherwise
        each element is classified and inserted in its own transaction, and an
        element whose insert raises (its position is in `failing`) is rolled
        back alone. An element that raises before its transaction, or a
        message that is not a list, ends the worker: the elements before it
        stay stored and nothing after it is read. */
    method HandleMessage(message: RawMessage, failing: set<int>)
      requires alive && tables.Valid()
      modifies this, tables
      ensures rawCount == old(rawCount) + 1
      ensures message.NotJson? ==> tables.block == old(tables.block) && tables.lit == old(tables.lit) && alive
      ensures message.NotAList? ==> tables.block == old(tables.block) && tables.lit == old(tables.lit) && !alive
      ensures message.Json? ==>
                var c := CrashAt(message.batch);
                tables.block == old(tables.block) + StoredBlocks(message.batch[..c], failing)
                && tables.lit == old(tables.lit) + StoredLits(message.batch[..c], failing)
                && (alive <==> c == |message.batch|)
      ensures tables.Valid()
    {
      rawCount := rawCount + 1;
      if message.NotJson? {
        return;
      }
      if message.NotAList? {
        alive := false;
        return;
      }
      alive := HandleBatch(message.batch, failing);
    }

    /** The `for` loop over a parsed batch; `survived` is false when an
        element raised before its transaction. */
    method HandleBatch(batch: seq<Event>, failing: set<int>) returns (survived: bool)
      requires tables.Valid()
      modifies tables
      ensures tables.block == old(tables.block) + StoredBlocks(batch[..CrashAt(batch)], failing)
      ensures tables.lit == old(tables.lit) + StoredLits(batch[..CrashAt(batch)], failing)
      ensures survived <==> CrashAt(batch) == |batch|
      ensures tables.Valid()
    {
      var i := 0;
      while i < |batch|
        invariant 0 <= i <= CrashAt(batch)
        invariant tables.block == old(tables.block) + StoredBlocks(batch[..i], failing)
        invariant tables.lit == old(tables.lit) + StoredLits(batch[..i], failing)
        invariant tables.Valid()
      {
        var crashed := HandleTrade(i, batch[i], failing);
        if crashed {
          return false;
        }
        StoredStep(batch, i, failing);
        i := i + 1;
      }
      return true;
    }

    /** The body of the per-element loop: the reads before the `try`, which
        raise on an element that `Crashes`, then the classification and the
        insert of the element at position `i`, rolled back when it raises. */
    method HandleTrade(i: int, e: Event, failing: set<int>) returns (crashed: bool)
      requires tables.Valid()
      modifies tables
      ensures crashed <==> Crashes(e)
      ensures tables.block == old(tables.block) + (if KeptBlock(i, e, failing) then {BlockRowOf(e.trade)} else {})
      ensures tables.lit == old(tables.lit) + (if KeptLit(i, e, failing) then {LitRowOf(e.trade)} else {})
      ensures tables.Valid()
    {
      if Crashes(e) {
        return true;
      }
      StoreTrade(i, e.trade, failing);
      return false;
    }

    /** The classification and the insert of one event object that does not
        raise before its transaction. */
    method StoreTrade(i: int, t: FeedTrade, failing: set<int>)
      requires tables.Valid()
      modifies tables
      ensures tables.block == old(tables.block) + (if i !in failing && IsLiveBlock(t) then {BlockRowOf(t)} else {})
      ensures tables.lit == old(tables.lit) + (if i !in failing && IsLiveLit(t) then {LitRowOf(t)} else {})
      ensures tables.Valid()
    {
      LiveRowsValid(t);
      if IsLiveBlock(t) {
        assert !IsLiveLit(t);
        if i !in failing {
          var _ := tables.InsertBlock(BlockRowOf(t));
        }
      } else if IsLiveLit(t) {
        if i !in failing {
          var _ := tables.InsertLit(LitRowOf(t));
        }
      }
    }

    /** One iteration of the worker's endless loop: take the oldest message
        and handle it. */
    method Step(queue: MessageQueue, failing: set<int>)
      requires alive && queue.Valid() && |queue.items| > 0 && tables.Valid()
      modifies this, tables, queue
      ensures queue.items == old(queue.items)[1..] && queue.Valid()
      ensures rawCount == old(rawCount) + 1
      ensures old(queue.items)[0].Json? ==>
                var batch := old(queue.items)[0].batch;
                tables.block == old(tables.block) + StoredBlocks(batch[..CrashAt(batch)], failing)
                && tables.lit == old(tables.lit) + StoredLits(batch[..CrashAt(batch)], failing)
                && (alive <==> CrashAt(batch) == |batch|)
      ensures !old(queue.items)[0].Json? ==>
                tables.block == old(tables.block) && tables.lit == old(tables.lit)
                && (alive <==> old(queue.items)[0].NotJson?)
      ensures tables.Valid()
    {
      var m := queue.Get();
      HandleMessage(m, failing);
    }
  }

  /** The queue `__main__` shares between the handler and the workers. */
  method MainQueue() returns (q: MessageQueue)
    ensures fresh(q) && q.capacity == QueueMaxSize && q.items == [] && q.Valid()
  {
    q := new MessageQueue(QueueMaxSize);
  }

  /** A `null` size on a trade event ends the worker before a well-formed
      block later in the same batch is read, so that block is lost, while a
      batch without the malformed event stores it. */
  lemma MalformedEventLosesRest(bad: FeedTrade, good: FeedTrade, failing: set<int>)
    requires bad.ev == Some("T") && bad.size.Null?
    requires IsLiveBlock(good) && 0 !in failing && 1 !in failing
    ensures var batch := [Object(bad), Object(good)];
            CrashAt(batch) == 0 && StoredBlocks(batch[..CrashAt(batch)], failing) == {}
            && BlockRowOf(good) in StoredBlocks(batch[1..], failing)
  {
    var batch := [Object(bad), Object(good)];
    assert Crashes(batch[0]);
    assert batch[..0] == [];
    assert batch[1..] == [Object(good)];
    assert KeptBlock(0, Object(good), failing);
  }
}
