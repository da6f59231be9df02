/** The supply/demand store of main.py: levels (`supply_demand_levels`), one
    volume-tracking row per level (`level_volume_tracking`) and the
    absorption segments (`absorption_job_segments`), held in memory in place of
    the SQL tables, with the table constraints as the store's invariant. */
module Registry {
  import opened Wrappers
  import opened Text
  import opened Dates

  datatype Level = Level(ticker: string, price: real, levelType: string, name: Option<string>,
                         created: Date, active: bool)

  /** A `level_volume_tracking` row. `lastUpdated` is the `NOW()` of the
      statement that last wrote it. */
  datatype Tracking = Tracking(
    ticker: string, levelPrice: real, rangeLow: real, rangeHigh: real,
    originalVolume: int, originalValue: real, absorbedVolume: int, absorbedValue: real,
    percentage: real, originalStart: Option<Date>, originalEnd: Option<Date>,
    absorptionStart: Option<Date>, lastUpdated: int)

  /** An `absorption_job_segments` row; `created` is its `NOW()`. */
  datatype Segment = Segment(jobId: string, levelId: int, volume: int, value: real, trades: int,
                             dateStart: Date, dateEnd: Date, created: int)

  /** The `level_type` check constraint. */
  predicate KnownLevelType(t: string) { t == "supply" || t == "demand" }

  datatype StoreError =
    | DuplicateLevel        // the UNIQUE(ticker, level_price) violation
    | InvalidLevelType      // the level_type check violation
    | LevelNotFound         // ValueError raised when no level has the id
    | UnknownLevel          // a foreign-key violation: no level has the id
    | NoBaseline            // ValueError: absorption without an original volume
    | BadDate(reason: DateError)

  // ---- the tracking arithmetic ----

  /** `(absorbed / original) * 100` when the original volume is positive, else
      0.0; it is not clamped. */
  function AbsorptionPercentage(absorbed: int, original: int): (p: real)
    ensures original > 0 ==> p * original as real == absorbed as real * 100.0
    ensures original <= 0 ==> p == 0.0
    ensures original > 0 && absorbed > original ==> p > 100.0
    ensures original > 0 && 0 <= absorbed <= original ==> 0.0 <= p <= 100.0
  {
    if original > 0 then (absorbed as real / original as real) * 100.0 else 0.0
  }

  /** The absorption UPDATE: the absorbed totals are replaced by this job's,
      the percentage recomputed, `absorption_start_date` set to the end date. */
  function Absorbed(row: Tracking, volume: int, value: real, end: Date, now: int): (r: Tracking)
    ensures r.absorbedVolume == volume && r.absorbedValue == value
    ensures r.percentage == AbsorptionPercentage(volume, row.originalVolume)
    ensures r.absorptionStart == Some(end) && r.lastUpdated == now
    ensures r.(absorbedVolume := row.absorbedVolume, absorbedValue := row.absorbedValue,
               percentage := row.percentage, absorptionStart := row.absorptionStart,
               lastUpdated := row.lastUpdated) == row
  {
    row.(absorbedVolume := volume, absorbedValue := value,
         percentage := AbsorptionPercentage(volume, row.originalVolume),
         absorptionStart := Some(end), lastUpdated := now)
  }

  /** The baseline upsert: a new row starts with nothing absorbed; on an
      existing row only the original totals, their dates and `last_updated`
      change. */
  function Baseline(existing: Option<Tracking>, ticker: string, price: real, tol: real,
                    volume: int, value: real, start: Date, end: Date, now: int): (r: Tracking)
    ensures r.originalVolume == volume && r.originalValue == value
    ensures r.originalStart == Some(start) && r.originalEnd == Some(end) && r.lastUpdated == now
    ensures existing.None? ==>
              r.absorbedVolume == 0 && r.absorbedValue == 0.0 && r.percentage == 0.0
              && r.absorptionStart == Some(end) && r.ticker == Upper(ticker)
              && r.rangeLow == price - tol && r.rangeHigh == price + tol
    ensures existing.Some? ==>
              r.(originalVolume := existing.value.originalVolume, originalValue := existing.value.originalValue,
                 originalStart := existing.value.originalStart, originalEnd := existing.value.originalEnd,
                 lastUpdated := existing.value.lastUpdated) == existing.value
  {
    match existing
    case None =>
      Tracking(Upper(ticker), price, price - tol, price + tol, volume, value, 0, 0.0, 0.0,
               Some(start), Some(end), Some(end), now)
    case Some(row) =>
      row.(originalVolume := volume, originalValue := value, originalStart := Some(start),
           originalEnd := Some(end), lastUpdated := now)
  }

  /** `update_level_volume_tracking` on the tracking table: both dates are
      parsed first; an absorption needs a row with an original volume and
      overwrites its absorbed totals; a baseline upserts the row of a level
      that exists. Gives the new table or the error raised. */
  function TrackingAfter(levels: map<int, Level>, tracking: map<int, Tracking>, levelId: int,
                         ticker: string, price: real, volume: int, value: real, tol: real,
                         startDate: string, endDate: string, isAbsorption: bool, now: int)
    : (r: Result<map<int, Tracking>, StoreError>)
    ensures ParseDate(startDate).Err? ==> r == Err(BadDate(ParseDate(startDate).error))
    ensures ParseDate(startDate).Ok? && ParseDate(endDate).Err? ==> r == Err(BadDate(ParseDate(endDate).error))
    ensures isAbsorption ==>
              (r.Ok? <==> ParseDate(startDate).Ok? && ParseDate(endDate).Ok?
                          && levelId in tracking && tracking[levelId].originalVolume != 0)
    ensures isAbsorption && ParseDate(startDate).Ok? && ParseDate(endDate).Ok? && r.Err? ==> r == Err(NoBaseline)
    ensures !isAbsorption ==> (r.Ok? <==> ParseDate(startDate).Ok? && ParseDate(endDate).Ok? && levelId in levels)
    ensures !isAbsorption && ParseDate(startDate).Ok? && ParseDate(endDate).Ok? && r.Err? ==> r == Err(UnknownLevel)
    ensures r.Ok? ==> r.value.Keys == tracking.Keys + {levelId}
                      && forall k | k in tracking && k != levelId :: r.value[k] == tracking[k]
    ensures r.Ok? && isAbsorption ==>
              r.value[levelId].absorbedVolume == volume
              && r.value[levelId].originalVolume == tracking[levelId].originalVolume
              && r.value[levelId].percentage == AbsorptionPercentage(volume, tracking[levelId].originalVolume)
    ensures r.Ok? && !isAbsorption ==>
              r.value[levelId].originalVolume == volume
              && (levelId in tracking ==> r.value[levelId].absorbedVolume == tracking[levelId].absorbedVolume)
              && (levelId !in tracking ==> r.value[levelId].absorbedVolume == 0)
  {
    match (ParseDate(startDate), ParseDate(endDate))
    case (Err(e), _) => Err(BadDate(e))
    case (_, Err(e)) => Err(BadDate(e))
    case (Ok(start), Ok(end)) =>
      if isAbsorption then
        if levelId in tracking && tracking[levelId].originalVolume != 0 then
          Ok(tracking[levelId := Absorbed(tracking[levelId], volume, value, end, now)])
        else Err(NoBaseline)
      else if levelId in levels then
        var existing := if levelId in tracking then Some(tracking[levelId]) else None;
        Ok(tracking[levelId := Baseline(existing, ticker, price, tol, volume, value, start, end, now)])
      else Err(UnknownLevel)
  }

  // ---- segments ----

  /** A date as one number that orders like the calendar. */
  function DateKey(d: Date): int { d.year * 10000 + d.month * 100 + d.day }

  lemma DateKeyOrder(a: Date, b: Date)
    requires Valid(a) && Valid(b)
    ensures Before(a, b) <==> DateKey(a) < DateKey(b)
    ensures a == b <==> DateKey(a) == DateKey(b)
  {
  }

  predicate SortedByStart(ss: seq<Segment>) {
    forall i, j | 0 <= i < j < |ss| :: DateKey(ss[i].dateStart) <= DateKey(ss[j].dateStart)
  }

  /** The segments of one level, in table order. */
  function OfLevel(ss: seq<Segment>, levelId: int): (r: seq<Segment>)
    ensures forall s :: s in r <==> s in ss && s.levelId == levelId
    ensures |r| <= |ss|
  {
    if ss == [] then []
    else
      var rest := OfLevel(ss[..|ss| - 1], levelId);
      var s := ss[|ss| - 1];
      assert ss == ss[..|ss| - 1] + [s];
      if s.levelId == levelId then rest + [s] else rest
  }

  /** The segments of other levels, in table order. */
  function NotOfLevel(ss: seq<Segment>, levelId: int): (r: seq<Segment>)
    ensures forall s :: s in r <==> s in ss && s.levelId != levelId
    ensures |r| <= |ss|
  {
    if ss == [] then []
    else
      var rest := NotOfLevel(ss[..|ss| - 1], levelId);
      var s := ss[|ss| - 1];
      assert ss == ss[..|ss| - 1] + [s];
      if s.levelId != levelId then rest + [s] else rest
  }

  lemma ConsSortedByStart(x: Segment, rest: seq<Segment>)
    requires SortedByStart(rest)
    requires forall y | y in rest :: DateKey(x.dateStart) <= DateKey(y.dateStart)
    ensures SortedByStart([x] + rest)
  {
    var r := [x] + rest;
    forall i, j | 0 <= i < j < |r| ensures DateKey(r[i].dateStart) <= DateKey(r[j].dateStart) {
      if i > 0 {
        assert r[i] == rest[i - 1] && r[j] == rest[j - 1];
      } else {
        assert r[j] == rest[j - 1];
      }
    }
  }

  /** `s` placed before the first segment that starts later. */
  function InsertByStart(ss: seq<Segment>, s: Segment): (r: seq<Segment>)
    requires SortedByStart(ss)
    ensures SortedByStart(r)
    ensures multiset(r) == multiset(ss) + multiset{s}
  {
    if ss == [] then [s]
    else if DateKey(s.dateStart) < DateKey(ss[0].dateStart) then
      ConsSortedByStart(s, ss);
      [s] + ss
    else
      var rest := InsertByStart(ss[1..], s);
      HeadStaysFirst(ss, s, rest);
      [ss[0]] + rest
  }

  /** The head of a sorted list stays in front of the tail with `s` inserted,
      when `s` does not start before it. */
  lemma HeadStaysFirst(ss: seq<Segment>, s: Segment, rest: seq<Segment>)
    requires SortedByStart(ss) && ss != []
    requires DateKey(ss[0].dateStart) <= DateKey(s.dateStart)
    requires SortedByStart(rest) && multiset(rest) == multiset(ss[1..]) + multiset{s}
    ensures SortedByStart([ss[0]] + rest)
    ensures multiset([ss[0]] + rest) == multiset(ss) + multiset{s}
  {
    forall y | y in rest ensures DateKey(ss[0].dateStart) <= DateKey(y.dateStart) {
      assert y in multiset(rest);
      if y != s {
        assert y in multiset(ss[1..]);
        var k :| 0 <= k < |ss[1..]| && ss[1..][k] == y;
        assert ss[k + 1] == y;
      }
    }
    ConsSortedByStart(ss[0], rest);
    assert ss == [ss[0]] + ss[1..];
  }

  /** Stable insertion sort on the start date. */
  function SortByStart(ss: seq<Segment>): (r: seq<Segment>)
    ensures SortedByStart(r)
    ensures multiset(r) == multiset(ss)
  {
    if ss == [] then []
    else
      assert ss == ss[..|ss| - 1] + [ss[|ss| - 1]];
      InsertByStart(SortByStart(ss[..|ss| - 1]), ss[|ss| - 1])
  }

  /** `get_absorption_segments_for_level`: the level's segments ordered by
      `date_start`, each exactly once. */
  function ListSegments(ss: seq<Segment>, levelId: int): (r: seq<Segment>)
    ensures SortedByStart(r)
    ensures multiset(r) == multiset(OfLevel(ss, levelId))
    ensures forall s :: s in r <==> s in ss && s.levelId == levelId
  {
    var r := SortByStart(OfLevel(ss, levelId));
    assert forall s :: s in r <==> s in multiset(OfLevel(ss, levelId));
    r
  }

  lemma OfLevelSnoc(ss: seq<Segment>, s: Segment, levelId: int)
    ensures OfLevel(ss + [s], levelId) == if s.levelId == levelId then OfLevel(ss, levelId) + [s] else OfLevel(ss, levelId)
  {
    assert (ss + [s])[..|ss|] == ss;
  }

  /** After the cascade delete of a level, listing its segments gives nothing. */
  lemma DeletedLevelListsNothing(ss: seq<Segment>, levelId: int)
    ensures ListSegments(NotOfLevel(ss, levelId), levelId) == []
  {
  }

  /** The cascade delete of a level leaves every other level's segments, in
      their table order. */
  lemma {:induction false} DeleteKeepsOtherSegments(ss: seq<Segment>, levelId: int, other: int)
    requires other != levelId
    ensures OfLevel(NotOfLevel(ss, levelId), other) == OfLevel(ss, other)
    ensures ListSegments(NotOfLevel(ss, levelId), other) == ListSegments(ss, other)
    decreases |ss|
  {
    if ss != [] {
      var init, s := ss[..|ss| - 1], ss[|ss| - 1];
      assert ss == init + [s];
      DeleteKeepsOtherSegments(init, levelId, other);
      OfLevelSnoc(init, s, other);
      if s.levelId != levelId {
        OfLevelSnoc(NotOfLevel(init, levelId), s, other);
      }
    }
  }

  /** A second absorption replaces the first one's totals: absorbed figures
      never accumulate across absorption jobs. */
  lemma AbsorptionOverwrites(row: Tracking, v1: int, x1: real, e1: Date, n1: int,
                             v2: int, x2: real, e2: Date, n2: int)
    ensures Absorbed(Absorbed(row, v1, x1, e1, n1), v2, x2, e2, n2) == Absorbed(row, v2, x2, e2, n2)
  {
  }

  /** A baseline of 1500 shares, then an absorption of 600 gives 40%; a second
      absorption of 1200 gives 1200 absorbed and 80%, not 1800 and 120%; an
      absorption of 2400, more than the baseline, gives 160%, uncapped. */
  lemma AbsorptionScenario(ticker: string, price: real, tol: real, d1: Date, d2: Date, d3: Date, now: int)
    ensures var base := Baseline(None, ticker, price, tol, 1500, 150000.0, d1, d1, now);
            var first := Absorbed(base, 600, 60000.0, d2, now);
            var second := Absorbed(first, 1200, 120000.0, d3, now);
            base.absorbedVolume == 0 && base.percentage == 0.0
            && first.absorbedVolume == 600 && first.percentage == 40.0
            && second.absorbedVolume == 1200 && second.percentage == 80.0
            && Absorbed(base, 2400, 240000.0, d3, now).percentage == 160.0
  {
    var base := Baseline(None, ticker, price, tol, 1500, 150000.0, d1, d1, now);
    assert AbsorptionPercentage(600, 1500) == 40.0;
    assert AbsorptionPercentage(1200, 1500) == 80.0;
    assert AbsorptionPercentage(2400, 1500) == 160.0;
  }

  /** A new baseline keeps the absorbed figures and the stored percentage,
      even though the percentage was computed against the old original. */
  lemma RebaselineKeepsAbsorption(row: Tracking, ticker: string, price: real, tol: real,
                                  volume: int, value: real, start: Date, end: Date, now: int)
    ensures var r := Baseline(Some(row), ticker, price, tol, volume, value, start, end, now);
            r.absorbedVolume == row.absorbedVolume && r.absorbedValue == row.absorbedValue
            && r.percentage == row.percentage && r.absorptionStart == row.absorptionStart
            && r.originalVolume == volume
  {
  }

  // ---- the timeline derivation ----

  datatype TimelineStatus = ActiveWithAbsorption | ReadyForAbsorption | NeedsVolumeData

  /** The status of a level on the timeline, from its volumes (a missing
      tracking row reads as 0 for both). */
  function StatusOf(original: int, absorbed: int): (s: TimelineStatus)
  {
    if original > 0 && absorbed > 0 then ActiveWithAbsorption
    else if original > 0 then ReadyForAbsorption
    else NeedsVolumeData
  }

  /** The status tells exactly whether a baseline and an absorption were seen. */
  lemma StatusMeaning(original: int, absorbed: int)
    ensures StatusOf(original, absorbed) == NeedsVolumeData <==> original <= 0
    ensures StatusOf(original, absorbed) == ActiveWithAbsorption <==> original > 0 && absorbed > 0
    ensures StatusOf(original, absorbed) == ReadyForAbsorption <==> original > 0 && absorbed <= 0
  {
  }

  /** The latest end date among segments. */
  function LatestEnd(ss: seq<Segment>): (d: Date)
    requires ss != []
    ensures exists s | s in ss :: s.dateEnd == d
    ensures forall s | s in ss :: DateKey(s.dateEnd) <= DateKey(d)
  {
    if |ss| == 1 then ss[0].dateEnd
    else
      var rest := LatestEnd(ss[1..]);
      assert forall s | s in ss[1..] :: s in ss;
      assert forall s | s in ss :: s == ss[0] || s in ss[1..];
      if DateKey(ss[0].dateEnd) >= DateKey(rest) then ss[0].dateEnd else rest
  }

  /** `last_absorption_date`: the baseline's end date when there is one, else
      the latest segment end, else none. */
  function LastAbsorptionDate(originalEnd: Option<Date>, segments: seq<Segment>): (d: Option<Date>)
    ensures originalEnd.Some? ==> d == originalEnd
    ensures originalEnd.None? && segments == [] ==> d.None?
    ensures originalEnd.None? && segments != [] ==>
              d.Some? && (exists s | s in segments :: s.dateEnd == d.value)
              && forall s | s in segments :: DateKey(s.dateEnd) <= DateKey(d.value)
  {
    if originalEnd.Some? then originalEnd
    else if segments != [] then Some(LatestEnd(segments))
    else None
  }

  // ---- level listing ----

  /** One entry of `get_sd_levels`; a level without a tracking row reports 0. */
  datatype LevelView = LevelView(id: int, level: Level, originalVolume: int, absorbedVolume: int,
                                 percentage: real, lastUpdated: Option<int>)

  function ViewOf(id: int, l: Level, tracking: map<int, Tracking>): LevelView {
    if id in tracking then
      LevelView(id, l, tracking[id].originalVolume, tracking[id].absorbedVolume,
                tracking[id].percentage, Some(tracking[id].lastUpdated))
    else LevelView(id, l, 0, 0, 0.0, None)
  }

  predicate AscendingPrice(vs: seq<LevelView>) {
    forall i, j | 0 <= i < j < |vs| :: vs[i].level.price < vs[j].level.price
  }

  lemma ConsAscending(x: LevelView, rest: seq<LevelView>)
    requires AscendingPrice(rest)
    requires forall y | y in rest :: x.level.price < y.level.price
    ensures AscendingPrice([x] + rest)
  {
    var r := [x] + rest;
    forall i, j | 0 <= i < j < |r| ensures r[i].level.price < r[j].level.price {
      if i > 0 {
        assert r[i] == rest[i - 1] && r[j] == rest[j - 1];
      } else {
        assert r[j] == rest[j - 1];
      }
    }
  }

  /** `v` placed before the first view with a higher price. */
  function InsertByPrice(vs: seq<LevelView>, v: LevelView): (r: seq<LevelView>)
    requires AscendingPrice(vs)
    requires forall x | x in vs :: x.level.price != v.level.price
    ensures AscendingPrice(r)
    ensures forall x :: x in r <==> x in vs || x == v
    ensures |r| == |vs| + 1
  {
    if vs == [] then [v]
    else if v.level.price < vs[0].level.price then
      ConsAscending(v, vs);
      [v] + vs
    else
      var rest := InsertByPrice(vs[1..], v);
      assert forall x | x in vs[1..] :: x in vs;
      assert forall x | x in vs :: x == vs[0] || x in vs[1..];
      ConsAscending(vs[0], rest);
      [vs[0]] + rest
  }

  /** A listed level: active and of the (upper-cased) ticker. */
  predicate Listed(l: Level, ticker: string) {
    l.active && l.ticker == Upper(ticker)
  }

  function Abs(x: real): real { if x < 0.0 then -x else x }

  /** An active level of the ticker within the tolerance of the price. */
  predicate Near(l: Level, ticker: string, price: real, tol: real) {
    Listed(l, ticker) && Abs(l.price - price) <= tol
  }

  /** A set that is not empty has an element. */
  lemma HasMember(s: set<int>)
    requires s != {}
    ensures exists x :: x in s
  {
    if forall y :: y !in s {
      assert false;
    }
  }

  // ---- the store ----

  class SdStore {
    var levels: map<int, Level>
    var tracking: map<int, Tracking>
    var segments: seq<Segment>
    /** The next value of the `id` sequence. */
    var nextId: int

    /** The table constraints: ids below the sequence, UNIQUE(ticker,
        level_price), the level_type check, at most one tracking row per level
        and every tracking row and segment referring to a level. */
    predicate Valid()
      reads this
    {
      0 < nextId
      && (forall id | id in levels :: 0 < id < nextId && KnownLevelType(levels[id].levelType))
      && (forall a, b | a in levels && b in levels && a != b ::
            !(levels[a].ticker == levels[b].ticker && levels[a].price == levels[b].price))
      && (forall id | id in tracking :: id in levels)
      && (forall i | 0 <= i < |segments| :: segments[i].levelId in levels)
    }

    constructor()
      ensures levels == map[] && tracking == map[] && segments == [] && nextId == 1
      ensures Valid()
    {
      levels, tracking, segments, nextId := map[], map[], [], 1;
    }

    /** `create_sd_level`: insert an active level with the upper-cased ticker
        and today's date, taking the next id. */
    method CreateLevel(ticker: string, price: real, levelType: string, name: Option<string>, today: Date)
      returns (r: Result<int, StoreError>)
      requires Valid()
      modifies this
      ensures Valid()
      ensures tracking == old(tracking) && segments == old(segments)
      ensures !KnownLevelType(levelType) ==> r == Err(InvalidLevelType)
      ensures KnownLevelType(levelType)
              && (exists id | id in old(levels) :: old(levels)[id].ticker == Upper(ticker) && old(levels)[id].price == price)
              ==> r == Err(DuplicateLevel)
      ensures KnownLevelType(levelType)
              && !(exists id | id in old(levels) :: old(levels)[id].ticker == Upper(ticker) && old(levels)[id].price == price)
              ==> r.Ok?
      ensures r.Err? ==> levels == old(levels)
      ensures r.Ok? ==> r.value !in old(levels)
                        && levels == old(levels)[r.value := Level(Upper(ticker), price, levelType, name, today, true)]
    {
      var id := nextId;
      nextId := nextId + 1;
      if !KnownLevelType(levelType) {
        return Err(InvalidLevelType);
      }
      var t := Upper(ticker);
      if exists k | k in levels :: levels[k].ticker == t && levels[k].price == price {
        return Err(DuplicateLevel);
      }
      levels := levels[id := Level(t, price, levelType, name, today, true)];
      return Ok(id);
    }

    /** `get_sd_levels`: the active levels of the ticker with their tracking
        figures, by ascending price. */
    method GetLevels(ticker: string) returns (vs: seq<LevelView>)
      requires Valid()
      ensures AscendingPrice(vs)
      ensures forall v | v in vs :: v.id in levels && v == ViewOf(v.id, levels[v.id], tracking)
      ensures forall id | id in levels && Listed(levels[id], ticker) :: ViewOf(id, levels[id], tracking) in vs
      ensures forall v | v in vs :: Listed(v.level, ticker)
    {
      vs := [];
      var remaining := levels.Keys;
      while remaining != {}
        invariant remaining <= levels.Keys
        invariant AscendingPrice(vs)
        invariant forall v | v in vs :: v.id in levels && v.id !in remaining && v == ViewOf(v.id, levels[v.id], tracking)
        invariant forall v | v in vs :: Listed(v.level, ticker)
        invariant forall id | id in levels && id !in remaining && Listed(levels[id], ticker) ::
                    ViewOf(id, levels[id], tracking) in vs
        decreases |remaining|
      {
        HasMember(remaining);
        var id :| id in remaining;
        if Listed(levels[id], ticker) {
          var v := ViewOf(id, levels[id], tracking);
          forall x | x in vs ensures x.level.price != v.level.price {
            assert x.id != id && x.level.ticker == v.level.ticker;
          }
          vs := InsertByPrice(vs, v);
        }
        remaining := remaining - {id};
      }
    }

    /** `find_level_by_ticker_and_price`: an active level of the ticker whose
        price is within the tolerance, one of the closest. */
    method FindLevel(ticker: string, price: real, tol: real) returns (r: Option<int>)
      ensures r.None? <==> forall id | id in levels :: !Near(levels[id], ticker, price, tol)
      ensures r.Some? ==> r.value in levels && Near(levels[r.value], ticker, price, tol)
                          && forall id | id in levels && Near(levels[id], ticker, price, tol) ::
                               Abs(levels[r.value].price - price) <= Abs(levels[id].price - price)
    {
      r := None;
      var remaining := levels.Keys;
      while remaining != {}
        invariant remaining <= levels.Keys
        invariant r.None? ==> forall id | id in levels && id !in remaining :: !Near(levels[id], ticker, price, tol)
        invariant r.Some? ==> r.value in levels && Near(levels[r.value], ticker, price, tol)
                              && forall id | id in levels && id !in remaining && Near(levels[id], ticker, price, tol) ::
                                   Abs(levels[r.value].price - price) <= Abs(levels[id].price - price)
        decreases |remaining|
      {
        HasMember(remaining);
        var id :| id in remaining;
        if Near(levels[id], ticker, price, tol)
           && (r.None? || Abs(levels[id].price - price) < Abs(levels[r.value].price - price)) {
          r := Some(id);
        }
        remaining := remaining - {id};
      }
      if r.Some? {
        var found := r.value;
        assert found in levels && Near(levels[found], ticker, price, tol);
      }
    }

    /** `update_level_volume_tracking`. Both dates are parsed first. An
        absorption needs a row with an original volume and overwrites its
        absorbed totals; a baseline upserts the row. */
    method UpdateTracking(levelId: int, ticker: string, price: real, volume: int, value: real, tol: real,
                          startDate: string, endDate: string, isAbsorption: bool, now: int)
      returns (r: Result<(), StoreError>)
      requires Valid()
      modifies this
      ensures Valid()
      ensures levels == old(levels) && segments == old(segments) && nextId == old(nextId)
      ensures var u := TrackingAfter(old(levels), old(tracking), levelId, ticker, price, volume, value, tol,
                                     startDate, endDate, isAbsorption, now);
              (u.Ok? ==> r == Ok(()) && tracking == u.value)
              && (u.Err? ==> r == Err(u.error) && tracking == old(tracking))
    {
      var start := ParseDateString(AsText(startDate));
      if start.Err? {
        return Err(BadDate(start.error));
      }
      var end := ParseDateString(AsText(endDate));
      if end.Err? {
        return Err(BadDate(end.error));
      }
      if isAbsorption {
        if levelId in tracking && tracking[levelId].originalVolume != 0 {
          tracking := tracking[levelId := Absorbed(tracking[levelId], volume, value, end.value, now)];
          return Ok(());
        }
        return Err(NoBaseline);
      }
      if levelId !in levels {
        return Err(UnknownLevel);
      }
      var existing := if levelId in tracking then Some(tracking[levelId]) else None;
      tracking := tracking[levelId := Baseline(existing, ticker, price, tol, volume, value, start.value, end.value, now)];
      return Ok(());
    }

    /** `create_absorption_job_segment`: parse both dates and append a segment
        of the level. */
    method AppendSegment(levelId: int, jobId: string, volume: int, value: real, trades: int,
                         startDate: string, endDate: string, now: int)
      returns (r: Result<(), StoreError>)
      requires Valid()
      modifies this
      ensures Valid()
      ensures levels == old(levels) && tracking == old(tracking) && nextId == old(nextId)
      ensures r.Ok? <==> ParseDate(startDate).Ok? && ParseDate(endDate).Ok? && levelId in levels
      ensures r.Ok? ==> segments == old(segments) + [Segment(jobId, levelId, volume, value, trades,
                                                              ParseDate(startDate).value, ParseDate(endDate).value, now)]
      ensures r.Err? ==> segments == old(segments)
    {
      var start := ParseDateString(AsText(startDate));
      if start.Err? {
        return Err(BadDate(start.error));
      }
      var end := ParseDateString(AsText(endDate));
      if end.Err? {
        return Err(BadDate(end.error));
      }
      if levelId !in levels {
        return Err(UnknownLevel);
      }
      segments := segments + [Segment(jobId, levelId, volume, value, trades, start.value, end.value, now)];
      return Ok(());
    }

    /** `delete_sd_level`: the level's segments, then its tracking row, then
        the level. Gives the level and the two deleted counts. */
    method DeleteLevel(levelId: int) returns (r: Result<(Level, int, int), StoreError>)
      requires Valid()
      modifies this
      ensures Valid()
      ensures nextId == old(nextId)
      ensures levelId !in old(levels) ==> r == Err(LevelNotFound) && unchanged(this)
      ensures levelId in old(levels) ==>
                r == Ok((old(levels)[levelId], if levelId in old(tracking) then 1 else 0,
                         |old(segments)| - |NotOfLevel(old(segments), levelId)|))
                && levels == old(levels) - {levelId}
                && tracking == old(tracking) - {levelId}
                && segments == NotOfLevel(old(segments), levelId)
    {
      if levelId !in levels {
        return Err(LevelNotFound);
      }
      var level := levels[levelId];
      var kept := NotOfLevel(segments, levelId);
      var deletedSegments := |segments| - |kept|;
      segments := kept;
      var deletedTracking := if levelId in tracking then 1 else 0;
      tracking := tracking - {levelId};
      levels := levels - {levelId};
      return Ok((level, deletedTracking, deletedSegments));
    }

    /** `deactivate_level` as written: a missing level raises the 404 inside
        the `try`, whose handler turns every exception into a 500. */
    method Deactivate(levelId: int) returns (r: Result<Level, int>)
      requires Valid()
      modifies this
      ensures Valid()
      ensures tracking == old(tracking) && segments == old(segments) && nextId == old(nextId)
      ensures levelId !in old(levels) ==> r == Err(DeactivateMissingStatus) && levels == old(levels)
      ensures levelId in old(levels) ==>
                r == Ok(old(levels)[levelId]) && levels == old(levels)[levelId := old(levels)[levelId].(active := false)]
    {
      if levelId !in levels {
        return Err(DeactivateMissingStatus);
      }
      var level := levels[levelId];
      levels := levels[levelId := level.(active := false)];
      return Ok(level);
    }
  }

  /** The status `deactivate_level` answers for a missing level: the 404 it
      raises is caught by its own `except Exception` and re-raised as 500. */
  const DeactivateMissingStatus := 500
}
