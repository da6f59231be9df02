/** The background jobs of main.py: the in-memory `jobs_db`, the records
    written to `background_jobs`, and the job functions that take a job from
    its start to `completed` or `failed`. */
module Jobs {
  import opened Wrappers
  import opened Text
  import opened Dates
  import opened Provider
  import opened Walker
  import opened Registry
  import opened Seqs

  datatype Status =
    | StartingEnhanced            // 'starting_enhanced'
    | StartingAbsorption          // 'starting_enhanced_absorption'
    | FetchInProgress             // 'unlimited_fetch_in_progress'
    | UpdatingLevelAndSegments    // 'updating_level_and_segments'
    | StartingVolume              // 'starting_enhanced_volume'
    | CalculationInProgress       // 'unlimited_calculation_in_progress'
    | Completed                   // 'completed'
    | Failed                      // 'failed'

  datatype Analysis = AbsorptionAnalysis | VolumeAnalysis

  /** The totals `calculate_level_volume_from_cache` reports; they carry no
      call count. */
  datatype CacheTotals = CacheTotals(volume: int, value: real, trades: nat, priceRange: PriceRange)

  /** The `result` dict a job goes on with: the walker's totals, which carry
      `api_calls_made`, or the cached ones, which do not. */
  datatype Fetched = Fetched(volume: int, value: real, trades: nat, priceRange: PriceRange,
                             apiCallsMade: Option<nat>)

  /** The `market_data` of a completed job: the totals and what the job did
      with them. */
  datatype MarketData = MarketData(fetched: Fetched, levelId: Option<int>, levelUpdated: bool,
                                   segmentCreated: bool, analysis: Analysis)

  /** The exception a job ends on, kept as its `error`. */
  datatype JobFailure =
    | WalkFailed(walk: WalkError)            // the walker's exception, re-raised
    | AvailabilityFailed(date: DateError)    // `check_data_availability` could not parse a date
    | StoreFailed(store: StoreError)         // a tracking or segment write raised
    | MissingCallCount                       // KeyError: 'api_calls_made'

  /** A `jobs_db` entry. */
  datatype Job = Job(status: Status, progress: int, ticker: string, levelPrice: real,
                     levelId: Option<int>, dateRange: string, isAbsorption: bool,
                     apiCallsUsed: nat, result: Option<MarketData>, error: Option<JobFailure>)

  /** The part of a record each `update_job_in_db` writes that the model follows. */
  datatype Step = Step(status: Status, progress: int)

  /** What a job run leaves: the final record, the steps it wrote, and whether
      it wrote the tracking row and a segment. */
  datatype Effects = Effects(job: Job, steps: seq<Step>, tracked: bool, segmented: bool)

  /** The start endpoint's refusals: 400 for an absorption without a level,
      500 for the ValueError of `check_data_availability` on a date. */
  datatype StartError = MissingLevelId | Unavailable(reason: DateError)

  /** 404 for an unknown job, 400 for one not completed; 500 for the
      IndexError of a range without " to " and when the tracking update raises. */
  datatype LinkError = JobNotFound | NotCompleted | MalformedRange | TrackingFailed(reason: StoreError)

  /** The tolerance the volume job uses to find a level by price. */
  const NearestLevelTolerance := 0.10

  /** The tolerance `link_job_to_level` passes to the tracking update. */
  const LinkTolerance := 0.025

  // ---- the date range ----

  /** A text `strptime` accepts as a date holds no letter 't'. */
  lemma DateTextHasNoT(s: string)
    requires ParseDate(s).Ok?
    ensures forall i :: 0 <= i < |s| ==> s[i] != 't'
  {
    ParsedTextHasNoLetters(s);
  }

  /** `date_range` of two dates splits on " to " back into exactly the two
      dates, so `link_job_to_level` reads back the job's own range. */
  lemma RangeSplitsBack(startDate: string, endDate: string)
    requires ParseDate(startDate).Ok? && ParseDate(endDate).Ok?
    ensures Split(startDate + " to " + endDate, " to ") == [startDate, endDate]
  {
    DateTextHasNoT(startDate);
    DateTextHasNoT(endDate);
    SplitRangeRoundTrip(startDate, endDate);
  }

  /** What every record keeps: a progress in 0..100, a result once completed
      and an error once failed. */
  predicate WellFormed(j: Job) {
    0 <= j.progress <= 100
    && (j.status == Completed ==> j.result.Some?)
    && (j.status == Failed ==> j.error.Some?)
  }

  /** A run changes only the status, the progress, the error, the calls used
      and the result of the record. */
  predicate SameRequest(j: Job, k: Job) {
    k.(status := j.status, progress := j.progress, error := j.error,
       apiCallsUsed := j.apiCallsUsed, result := j.result) == j
  }

  /** The initial record of `start_enhanced_market_volume_job`. */
  function NewJob(ticker: string, levelPrice: real, levelId: Option<int>,
                  startDate: string, endDate: string, isAbsorption: bool): (j: Job)
    ensures ParseDate(startDate).Ok? && ParseDate(endDate).Ok? ==>
              WellFormed(j) && Split(j.dateRange, " to ") == [startDate, endDate]
  {
    var j := Job(StartingEnhanced, 0, Upper(ticker), levelPrice, levelId, startDate + " to " + endDate,
                 isAbsorption, 0, None, None);
    if ParseDate(startDate).Ok? && ParseDate(endDate).Ok? then
      RangeSplitsBack(startDate, endDate); j
    else j
  }

  // ---- the totals a job works with ----

  /** The `result` a job goes on with: the walker's totals; when the walker
      raised, the cached totals if `check_data_availability` (which parses
      both dates first) reports data; otherwise the job fails. */
  function Fetch(w: Result<WalkResult, WalkError>, startDate: string, endDate: string,
                 cache: Option<CacheTotals>): (r: Result<Fetched, JobFailure>)
    ensures w.Ok? ==> r == Ok(Fetched(w.value.volume, w.value.value, w.value.trades,
                                      w.value.priceRange, Some(w.value.apiCalls)))
    ensures w.Err? && r.Ok? ==> cache.Some? && r.value.apiCallsMade.None?
                                && r.value.volume == cache.value.volume && r.value.trades == cache.value.trades
    ensures w.Err? ==> (r.Ok? <==> cache.Some? && ParseDate(startDate).Ok? && ParseDate(endDate).Ok?)
    ensures w.Err? && cache.None? && ParseDate(startDate).Ok? && ParseDate(endDate).Ok? ==>
              r == Err(WalkFailed(w.error))
  {
    match w
    case Ok(x) => Ok(Fetched(x.volume, x.value, x.trades, x.priceRange, Some(x.apiCalls)))
    case Err(e) =>
      if ParseDate(startDate).Err? then Err(AvailabilityFailed(ParseDate(startDate).error))
      else if ParseDate(endDate).Err? then Err(AvailabilityFailed(ParseDate(endDate).error))
      else
        match cache
        case None => Err(WalkFailed(e))
        case Some(c) => Ok(Fetched(c.volume, c.value, c.trades, c.priceRange, None))
  }

  /** Totals a job goes on with always come from two dates `strptime`
      accepts, so the tracking update and the segment insert parse them. */
  lemma FetchedDatesParse(apiKeySet: bool, level: real, tol: real, startDate: string, endDate: string,
                          h: History, cache: Option<CacheTotals>)
    requires Fetch(WalkOutcome(apiKeySet, level, tol, startDate, endDate, h), startDate, endDate, cache).Ok?
    ensures ParseDate(startDate).Ok? && ParseDate(endDate).Ok?
  {
    WalkFailsOnlyOnInput(apiKeySet, level, tol, startDate, endDate, h);
  }

  // ---- closing a job ----

  /** The closing steps as written: status completed, progress 100, then
      `result['api_calls_made']`, which raises KeyError on cached totals, so
      such a job ends failed at progress 100 with no result. */
  function FinishAsWritten(j: Job, md: MarketData): (r: Job)
    ensures md.fetched.apiCallsMade.None? ==>
              r.status == Failed && r.progress == 100 && r.result == j.result && r.error == Some(MissingCallCount)
    ensures md.fetched.apiCallsMade.Some? ==> r == Finish(j, md)
  {
    match md.fetched.apiCallsMade
    case None => j.(status := Failed, progress := 100, error := Some(MissingCallCount))
    case Some(n) => j.(status := Completed, progress := 100, apiCallsUsed := n, result := Some(md))
  }

  /** The closing steps as intended: the job completes with its totals, and
      cached totals count as no calls. */
  function Finish(j: Job, md: MarketData): (r: Job)
    ensures r.status == Completed && r.progress == 100 && r.result == Some(md)
    ensures r.apiCallsUsed == md.fetched.apiCallsMade.GetOr(0)
    ensures SameRequest(j, r) && r.error == j.error
  {
    j.(status := Completed, progress := 100, apiCallsUsed := md.fetched.apiCallsMade.GetOr(0), result := Some(md))
  }

  /** A job that fell back on cached totals: as written it ends failed at
      progress 100 although its writes were made; as intended it completes
      with no calls counted. */
  lemma CachedTotalsFailAsWritten(j: Job, c: CacheTotals, levelId: int)
    ensures var f := Fetched(c.volume, c.value, c.trades, c.priceRange, None);
            var md := MarketData(f, Some(levelId), true, true, AbsorptionAnalysis);
            var e := AbsorptionRun(j, Ok(f), levelId, true);
            e.tracked && e.segmented
            && FinishAsWritten(j, md).status == Failed
            && e.job.status == Completed && e.job.apiCallsUsed == 0
  {
  }

  /** The volume job on cached totals: as written, `api_calls_used` is read
      from totals that have no call count after the baseline of the settled
      level was written, so the job ends failed at progress 100; as intended
      it completes with no calls counted and the same writes. */
  lemma CachedVolumeFailsAsWritten(j: Job, c: CacheTotals, target: Option<int>, levelKnown: bool)
    requires target.None? || levelKnown
    ensures var f := Fetched(c.volume, c.value, c.trades, c.priceRange, None);
            var md := MarketData(f, target, target.Some?, false, VolumeAnalysis);
            var e := VolumeClose(j, f, target, levelKnown);
            e.tracked == target.Some?
            && FinishAsWritten(j, md).status == Failed && FinishAsWritten(j, md).progress == 100
            && FinishAsWritten(j, md).result == j.result
            && e.job.status == Completed && e.job.apiCallsUsed == 0 && e.job.result == Some(md)
  {
  }

  // ---- the two jobs ----

  /** The ordering of the steps a job writes: its progress never goes back. */
  predicate NonDecreasing(steps: seq<Step>) {
    forall i, k | 0 <= i < k < |steps| :: steps[i].progress <= steps[k].progress
  }

  /** A level id the job treats as given (`if target_level_id:`). */
  predicate Truthy(id: Option<int>) { id.Some? && id.value != 0 }

  /** The level the volume job settles on: the given one when it is truthy,
      else an active level of the ticker within 0.10 of the price, one of the
      closest, or none when there is no such level. */
  predicate SettledOn(levels: map<int, Level>, ticker: string, levelPrice: real, levelId: Option<int>,
                      target: Option<int>) {
    (target.Some? ==> target.value != 0)
    && (Truthy(levelId) ==> target == levelId)
    && (!Truthy(levelId) ==>
          (target.None? <==> forall id | id in levels :: !Near(levels[id], ticker, levelPrice, NearestLevelTolerance))
          && (target.Some? ==>
                target.value in levels && Near(levels[target.value], ticker, levelPrice, NearestLevelTolerance)
                && forall id | id in levels && Near(levels[id], ticker, levelPrice, NearestLevelTolerance) ::
                     Abs(levels[target.value].price - levelPrice) <= Abs(levels[id].price - levelPrice)))
  }

  /** The volume job's choice of level: the given one when it is truthy,
      else the nearest level `find_level_by_ticker_and_price` reports. */
  method Settle(store: SdStore, ticker: string, levelPrice: real, levelId: Option<int>)
    returns (target: Option<int>)
    requires store.Valid()
    ensures SettledOn(store.levels, ticker, levelPrice, levelId, target)
  {
    target := levelId;
    if !Truthy(target) {
      target := store.FindLevel(ticker, levelPrice, NearestLevelTolerance);
    }
    if !Truthy(target) {
      target := None;
    }
  }

  /** The level has a tracking row with an original volume (`current_data
      and current_data['original_volume']`). */
  predicate HasBaseline(tracking: map<int, Tracking>, levelId: int) {
    levelId in tracking && tracking[levelId].originalVolume != 0
  }

  /** `enhanced_absorption_job` on the record `j`, given the totals it goes on
      with and whether the level has a tracking row with an original volume. */
  function AbsorptionRun(j: Job, f: Result<Fetched, JobFailure>, levelId: int, hasBaseline: bool): (e: Effects)
    ensures e.job.status == Completed <==> f.Ok? && hasBaseline
    ensures e.job.status != Completed ==> e.job.status == Failed && e.job.error.Some?
    ensures e.job.status == Completed ==>
              e.steps == [Step(StartingAbsorption, 10), Step(FetchInProgress, 30),
                          Step(UpdatingLevelAndSegments, 85), Step(Completed, 100)]
              && e.job.result == Some(MarketData(f.value, Some(levelId), true, true, AbsorptionAnalysis))
    ensures f.Err? ==>
              e.job.error == Some(f.error) && e.job.progress == 30
              && e.steps == [Step(StartingAbsorption, 10), Step(FetchInProgress, 30), Step(Failed, 30)]
    ensures f.Ok? && !hasBaseline ==>
              e.job.error == Some(StoreFailed(NoBaseline)) && e.job.progress == 85
              && e.steps == [Step(StartingAbsorption, 10), Step(FetchInProgress, 30),
                             Step(UpdatingLevelAndSegments, 85), Step(Failed, 85)]
    ensures e.tracked == e.segmented == (e.job.status == Completed)
    ensures |e.steps| > 0 && e.steps[|e.steps| - 1] == Step(e.job.status, e.job.progress)
    ensures NonDecreasing(e.steps) && SameRequest(j, e.job)
  {
    var fetching := [Step(StartingAbsorption, 10), Step(FetchInProgress, 30)];
    var j2 := j.(status := FetchInProgress, progress := 30);
    if f.Err? then
      Effects(j2.(status := Failed, error := Some(f.error)), fetching + [Step(Failed, 30)], false, false)
    else
      var updating := fetching + [Step(UpdatingLevelAndSegments, 85)];
      var j3 := j2.(status := UpdatingLevelAndSegments, progress := 85);
      if !hasBaseline then
        Effects(j3.(status := Failed, error := Some(StoreFailed(NoBaseline))), updating + [Step(Failed, 85)],
                false, false)
      else
        Effects(Finish(j3, MarketData(f.value, Some(levelId), true, true, AbsorptionAnalysis)),
                updating + [Step(Completed, 100)], true, true)
  }

  /** `enhanced_volume_job` on the record `j`, given the totals it goes on
      with, the level it settled on and whether that level exists. */
  function VolumeRun(j: Job, f: Result<Fetched, JobFailure>, target: Option<int>, levelKnown: bool): (e: Effects)
    ensures e.job.status == Completed <==> f.Ok? && (target.None? || levelKnown)
    ensures e.job.status != Completed ==>
              e.job.status == Failed && e.job.error.Some? && e.job.progress == 30
              && e.steps == [Step(StartingVolume, 10), Step(CalculationInProgress, 30), Step(Failed, 30)]
    ensures e.job.status == Completed ==>
              e.steps == [Step(StartingVolume, 10), Step(CalculationInProgress, 30), Step(Completed, 100)]
              && e.job.result == Some(MarketData(f.value, target, target.Some?, false, VolumeAnalysis))
    ensures f.Ok? && target.Some? && !levelKnown ==> e.job.error == Some(StoreFailed(UnknownLevel))
    ensures e.tracked <==> f.Ok? && target.Some? && levelKnown
    ensures !e.segmented
    ensures |e.steps| > 0 && e.steps[|e.steps| - 1] == Step(e.job.status, e.job.progress)
    ensures NonDecreasing(e.steps) && SameRequest(j, e.job)
  {
    var calculating := [Step(StartingVolume, 10), Step(CalculationInProgress, 30)];
    var j2 := j.(status := CalculationInProgress, progress := 30);
    if f.Err? then
      Effects(j2.(status := Failed, error := Some(f.error)), calculating + [Step(Failed, 30)], false, false)
    else
      var c := VolumeClose(j2, f.value, target, levelKnown);
      Effects(c.job, calculating + c.steps, c.tracked, c.segmented)
  }

  /** The volume job once it has its totals: update the settled level's
      baseline, if any, and close the job. */
  function VolumeClose(j: Job, fetched: Fetched, target: Option<int>, levelKnown: bool): (e: Effects)
    ensures target.Some? && !levelKnown ==>
              e.job == j.(status := Failed, error := Some(StoreFailed(UnknownLevel)))
              && e.steps == [Step(Failed, j.progress)] && !e.tracked
    ensures !(target.Some? && !levelKnown) ==>
              e.job == Finish(j, MarketData(fetched, target, target.Some?, false, VolumeAnalysis))
              && e.steps == [Step(Completed, 100)] && e.tracked == target.Some?
    ensures !e.segmented
  {
    if target.Some? && !levelKnown then
      Effects(j.(status := Failed, error := Some(StoreFailed(UnknownLevel))), [Step(Failed, j.progress)], false, false)
    else
      Effects(Finish(j, MarketData(fetched, target, target.Some?, false, VolumeAnalysis)),
              [Step(Completed, 100)], target.Some?, false)
  }

  /** The records written for a job so far. */
  function Prior(history: map<string, seq<Step>>, jobId: string): seq<Step> {
    if jobId in history then history[jobId] else []
  }

  /** `jobs_db` with the `background_jobs` writes. `history[id]` is every
      record written for the job, in order; its last one is the table row. */
  class JobRegistry {
    var jobs: map<string, Job>
    var history: map<string, seq<Step>>

    predicate Valid()
      reads this
    {
      forall id | id in jobs :: WellFormed(jobs[id])
    }

    constructor()
      ensures jobs == map[] && history == map[] && Valid()
    {
      jobs, history := map[], map[];
    }

    /** Set the record in `jobs_db` and write it (`update_job_in_db`). */
    method Publish(jobId: string, j: Job)
      requires Valid() && WellFormed(j)
      modifies this
      ensures Valid()
      ensures jobs == old(jobs)[jobId := j]
      ensures history == old(history)[jobId := Prior(old(history), jobId) + [Step(j.status, j.progress)]]
    {
      jobs := jobs[jobId := j];
      history := history[jobId := Prior(history, jobId) + [Step(j.status, j.progress)]];
    }

    /** `start_enhanced_market_volume_job`: refuse an absorption without a
        level and dates `check_data_availability` cannot parse, then store and
        write the initial record. The caller then runs the job. */
    method StartJob(jobId: string, ticker: string, levelPrice: real, startDate: string, endDate: string,
                    levelId: Option<int>, isAbsorption: bool)
      returns (r: Result<Analysis, StartError>)
      requires Valid()
      modifies this
      ensures Valid()
      ensures isAbsorption && levelId.None? ==> r == Err(MissingLevelId)
      ensures !(isAbsorption && levelId.None?) && ParseDate(startDate).Err? ==>
                r == Err(Unavailable(ParseDate(startDate).error))
      ensures !(isAbsorption && levelId.None?) && ParseDate(startDate).Ok? && ParseDate(endDate).Err? ==>
                r == Err(Unavailable(ParseDate(endDate).error))
      ensures r.Ok? <==> !(isAbsorption && levelId.None?) && ParseDate(startDate).Ok? && ParseDate(endDate).Ok?
      ensures r.Err? ==> jobs == old(jobs) && history == old(history)
      ensures r.Ok? ==> r.value == (if isAbsorption then AbsorptionAnalysis else VolumeAnalysis)
                        && jobs == old(jobs)[jobId := NewJob(ticker, levelPrice, levelId, startDate, endDate, isAbsorption)]
                        && history == old(history)[jobId := Prior(old(history), jobId) + [Step(StartingEnhanced, 0)]]
    {
      if isAbsorption && levelId.None? {
        return Err(MissingLevelId);
      }
      var start := ParseDateString(AsText(startDate));
      if start.Err? {
        return Err(Unavailable(start.error));
      }
      var end := ParseDateString(AsText(endDate));
      if end.Err? {
        return Err(Unavailable(end.error));
      }
      Publish(jobId, NewJob(ticker, levelPrice, levelId, startDate, endDate, isAbsorption));
      return Ok(if isAbsorption then AbsorptionAnalysis else VolumeAnalysis);
    }

    /** `enhanced_absorption_job`: walk the provider's pages `h` (or fall
        back on `cache`), overwrite the level's absorbed totals, append the
        job's segment, and close the job. */
    method RunAbsorption(store: SdStore, jobId: string, ticker: string, levelPrice: real,
                         startDate: string, endDate: string, tol: real, levelId: int,
                         apiKeySet: bool, h: History, cache: Option<CacheTotals>, now: int)
      requires Valid() && store.Valid() && jobId in jobs
      modifies this, store
      ensures Valid() && store.Valid()
      ensures store.levels == old(store.levels) && store.nextId == old(store.nextId)
      ensures var f := Fetch(WalkOutcome(apiKeySet, levelPrice, tol, startDate, endDate, h), startDate, endDate, cache);
              var e := AbsorptionRun(old(jobs)[jobId], f, levelId, HasBaseline(old(store.tracking), levelId));
              jobs == old(jobs)[jobId := e.job]
      ensures var f := Fetch(WalkOutcome(apiKeySet, levelPrice, tol, startDate, endDate, h), startDate, endDate, cache);
              var e := AbsorptionRun(old(jobs)[jobId], f, levelId, HasBaseline(old(store.tracking), levelId));
              history == old(history)[jobId := Prior(old(history), jobId) + e.steps]
      ensures var f := Fetch(WalkOutcome(apiKeySet, levelPrice, tol, startDate, endDate, h), startDate, endDate, cache);
              var e := AbsorptionRun(old(jobs)[jobId], f, levelId, HasBaseline(old(store.tracking), levelId));
              if e.tracked then
                store.tracking == TrackingAfter(old(store.levels), old(store.tracking), levelId, ticker, levelPrice,
                                                f.value.volume, f.value.value, tol, startDate, endDate, true, now).value
              else store.tracking == old(store.tracking)
      ensures var f := Fetch(WalkOutcome(apiKeySet, levelPrice, tol, startDate, endDate, h), startDate, endDate, cache);
              var e := AbsorptionRun(old(jobs)[jobId], f, levelId, HasBaseline(old(store.tracking), levelId));
              if e.segmented then
                store.segments == old(store.segments)
                                  + [Segment(jobId, levelId, f.value.volume, f.value.value, f.value.trades,
                                             ParseDate(startDate).value, ParseDate(endDate).value, now)]
              else store.segments == old(store.segments)
    {
      ghost var j0, h0 := jobs[jobId], Prior(history, jobId);
      ghost var jobs0, history0 := jobs, history;
      var s1 := Step(StartingAbsorption, 10);
      var s2 := Step(FetchInProgress, 30);
      var j1 := jobs[jobId].(status := StartingAbsorption, progress := 10);
      Publish(jobId, j1);
      var j2 := jobs[jobId].(status := FetchInProgress, progress := 30);
      Publish(jobId, j2);
      Overwrite(jobs0, jobId, j1, j2);
      Overwrite(history0, jobId, h0 + [s1], h0 + [s1] + [s2]);
      var w := Walk(apiKeySet, levelPrice, tol, startDate, endDate, h);
      var f := Fetch(w, startDate, endDate, cache);
      if f.Err? {
        var j3 := jobs[jobId].(status := Failed, error := Some(f.error));
        Publish(jobId, j3);
        Overwrite(jobs0, jobId, j2, j3);
        Overwrite(history0, jobId, h0 + [s1] + [s2], h0 + [s1] + [s2] + [Step(Failed, 30)]);
        AppendThree(h0, s1, s2, Step(Failed, 30));
        return;
      }
      FetchedDatesParse(apiKeySet, levelPrice, tol, startDate, endDate, h, cache);
      var s3 := Step(UpdatingLevelAndSegments, 85);
      var j3 := jobs[jobId].(status := UpdatingLevelAndSegments, progress := 85);
      Publish(jobId, j3);
      Overwrite(jobs0, jobId, j2, j3);
      Overwrite(history0, jobId, h0 + [s1] + [s2], h0 + [s1] + [s2] + [s3]);
      var u := store.UpdateTracking(levelId, ticker, levelPrice, f.value.volume, f.value.value, tol,
                                    startDate, endDate, true, now);
      if u.Err? {
        var j4 := jobs[jobId].(status := Failed, error := Some(StoreFailed(u.error)));
        Publish(jobId, j4);
        Overwrite(jobs0, jobId, j3, j4);
        Overwrite(history0, jobId, h0 + [s1] + [s2] + [s3], h0 + [s1] + [s2] + [s3] + [Step(Failed, 85)]);
        AppendFour(h0, s1, s2, s3, Step(Failed, 85));
        return;
      }
      // The level has a tracking row, so it exists, and both dates parsed:
      // the insert cannot fail.
      var s := store.AppendSegment(levelId, jobId, f.value.volume, f.value.value, f.value.trades,
                                   startDate, endDate, now);
      var j4 := Finish(jobs[jobId], MarketData(f.value, Some(levelId), true, true, AbsorptionAnalysis));
      Publish(jobId, j4);
      Overwrite(jobs0, jobId, j3, j4);
      Overwrite(history0, jobId, h0 + [s1] + [s2] + [s3], h0 + [s1] + [s2] + [s3] + [Step(Completed, 100)]);
      AppendFour(h0, s1, s2, s3, Step(Completed, 100));
    }

    /** `enhanced_volume_job`: walk the provider's pages `h` (or fall back on
        `cache`), settle on the given level or else the nearest active level
        of the ticker within 0.10, upsert its baseline, and close the job.
        Gives the level it settled on. */
    method RunVolume(store: SdStore, jobId: string, ticker: string, levelPrice: real,
                     startDate: string, endDate: string, tol: real, levelId: Option<int>,
                     apiKeySet: bool, h: History, cache: Option<CacheTotals>, now: int)
      returns (target: Option<int>)
      requires Valid() && store.Valid() && jobId in jobs
      modifies this, store
      ensures Valid() && store.Valid()
      ensures store.levels == old(store.levels) && store.nextId == old(store.nextId)
      ensures store.segments == old(store.segments)
      ensures var f := Fetch(WalkOutcome(apiKeySet, levelPrice, tol, startDate, endDate, h), startDate, endDate, cache);
              if f.Ok? then SettledOn(store.levels, ticker, levelPrice, levelId, target) else target.None?
      ensures var f := Fetch(WalkOutcome(apiKeySet, levelPrice, tol, startDate, endDate, h), startDate, endDate, cache);
              var e := VolumeRun(old(jobs)[jobId], f, target, target.Some? && target.value in old(store.levels));
              jobs == old(jobs)[jobId := e.job]
      ensures var f := Fetch(WalkOutcome(apiKeySet, levelPrice, tol, startDate, endDate, h), startDate, endDate, cache);
              var e := VolumeRun(old(jobs)[jobId], f, target, target.Some? && target.value in old(store.levels));
              history == old(history)[jobId := Prior(old(history), jobId) + e.steps]
      ensures var f := Fetch(WalkOutcome(apiKeySet, levelPrice, tol, startDate, endDate, h), startDate, endDate, cache);
              var e := VolumeRun(old(jobs)[jobId], f, target, target.Some? && target.value in old(store.levels));
              if e.tracked then
                store.tracking == TrackingAfter(old(store.levels), old(store.tracking), target.value, ticker, levelPrice,
                                                f.value.volume, f.value.value, tol, startDate, endDate, false, now).value
              else store.tracking == old(store.tracking)
    {
      ghost var h0 := Prior(history, jobId);
      ghost var jobs0, history0 := jobs, history;
      var s1 := Step(StartingVolume, 10);
      var s2 := Step(CalculationInProgress, 30);
      var j1 := jobs[jobId].(status := StartingVolume, progress := 10);
      Publish(jobId, j1);
      var j2 := jobs[jobId].(status := CalculationInProgress, progress := 30);
      Publish(jobId, j2);
      Overwrite(jobs0, jobId, j1, j2);
      Overwrite(history0, jobId, h0 + [s1], h0 + [s1] + [s2]);
      var w := Walk(apiKeySet, levelPrice, tol, startDate, endDate, h);
      var f := Fetch(w, startDate, endDate, cache);
      if f.Err? {
        var j3 := jobs[jobId].(status := Failed, error := Some(f.error));
        Publish(jobId, j3);
        Overwrite(jobs0, jobId, j2, j3);
        Overwrite(history0, jobId, h0 + [s1] + [s2], h0 + [s1] + [s2] + [Step(Failed, 30)]);
        AppendThree(h0, s1, s2, Step(Failed, 30));
        return None;
      }
      FetchedDatesParse(apiKeySet, levelPrice, tol, startDate, endDate, h, cache);
      ghost var levels0 := store.levels;
      target := CloseVolume(store, jobId, ticker, levelPrice, startDate, endDate, tol, levelId, f.value, now);
      ghost var c := VolumeClose(j2, f.value, target, target.Some? && target.value in levels0);
      Overwrite(jobs0, jobId, j2, c.job);
      Overwrite(history0, jobId, h0 + [s1] + [s2], h0 + [s1] + [s2] + c.steps);
      AppendTwoThen(h0, s1, s2, c.steps);
    }

    /** The rest of `enhanced_volume_job` once the totals are in: settle on a
        level, upsert its baseline, and close the job. */
    method CloseVolume(store: SdStore, jobId: string, ticker: string, levelPrice: real,
                       startDate: string, endDate: string, tol: real, levelId: Option<int>,
                       fetched: Fetched, now: int)
      returns (target: Option<int>)
      requires Valid() && store.Valid() && jobId in jobs
      requires ParseDate(startDate).Ok? && ParseDate(endDate).Ok?
      modifies this, store
      ensures Valid() && store.Valid()
      ensures store.levels == old(store.levels) && store.nextId == old(store.nextId)
      ensures store.segments == old(store.segments)
      ensures SettledOn(store.levels, ticker, levelPrice, levelId, target)
      ensures var c := VolumeClose(old(jobs)[jobId], fetched, target, target.Some? && target.value in old(store.levels));
              jobs == old(jobs)[jobId := c.job]
              && history == old(history)[jobId := Prior(old(history), jobId) + c.steps]
              && if c.tracked then
                   store.tracking == TrackingAfter(old(store.levels), old(store.tracking), target.value, ticker,
                                                   levelPrice, fetched.volume, fetched.value, tol, startDate, endDate,
                                                   false, now).value
                 else store.tracking == old(store.tracking)
    {
      target := Settle(store, ticker, levelPrice, levelId);
      if target.Some? {
        var u := store.UpdateTracking(target.value, ticker, levelPrice, fetched.volume, fetched.value, tol,
                                      startDate, endDate, false, now);
        if u.Err? {
          Publish(jobId, jobs[jobId].(status := Failed, error := Some(StoreFailed(u.error))));
          return;
        }
      }
      Publish(jobId, Finish(jobs[jobId], MarketData(fetched, target, target.Some?, false, VolumeAnalysis)));
    }

    /** `get_job_status`: the record, or 404. */
    method GetJobStatus(jobId: string) returns (r: Option<Job>)
      ensures r.Some? <==> jobId in jobs
      ensures r.Some? ==> r.value == jobs[jobId]
    {
      if jobId !in jobs {
        return None;
      }
      return Some(jobs[jobId]);
    }

    /** `delete_job_and_data`: remove the record from `jobs_db` and its row,
        giving the ticker and the status it had; an unknown job raises
        ValueError (404). */
    method DeleteJob(jobId: string) returns (r: Option<(string, Status)>)
      requires Valid()
      modifies this
      ensures Valid()
      ensures r.Some? <==> jobId in old(jobs)
      ensures r.None? ==> jobs == old(jobs) && history == old(history)
      ensures r.Some? ==> r.value == (old(jobs)[jobId].ticker, old(jobs)[jobId].status)
                          && jobs == old(jobs) - {jobId} && history == old(history) - {jobId}
    {
      if jobId !in jobs {
        return None;
      }
      var j := jobs[jobId];
      jobs := jobs - {jobId};
      history := history - {jobId};
      return Some((j.ticker, j.status));
    }

    /** `link_job_to_level`: feed a completed job's totals to the tracking
        update of a level, with the dates read back from the job's range. */
    method Link(store: SdStore, jobId: string, levelId: int, now: int) returns (r: Result<MarketData, LinkError>)
      requires Valid() && store.Valid()
      modifies store
      ensures store.Valid()
      ensures store.levels == old(store.levels) && store.segments == old(store.segments)
              && store.nextId == old(store.nextId)
      ensures jobId !in jobs ==> r == Err(JobNotFound) && store.tracking == old(store.tracking)
      ensures jobId in jobs && jobs[jobId].status != Completed ==>
                r == Err(NotCompleted) && store.tracking == old(store.tracking)
      ensures jobId in jobs && jobs[jobId].status == Completed && |Split(jobs[jobId].dateRange, " to ")| < 2 ==>
                r == Err(MalformedRange) && store.tracking == old(store.tracking)
      ensures jobId in jobs && jobs[jobId].status == Completed && |Split(jobs[jobId].dateRange, " to ")| >= 2 ==>
                var j := jobs[jobId];
                var parts := Split(j.dateRange, " to ");
                var md := j.result.value;
                var u := TrackingAfter(old(store.levels), old(store.tracking), levelId, j.ticker, j.levelPrice,
                                       md.fetched.volume, md.fetched.value, LinkTolerance, parts[0], parts[1],
                                       j.isAbsorption, now);
                (u.Ok? ==> r == Ok(md) && store.tracking == u.value)
                && (u.Err? ==> r == Err(TrackingFailed(u.error)) && store.tracking == old(store.tracking))
    {
      if jobId !in jobs {
        return Err(JobNotFound);
      }
      var j := jobs[jobId];
      if j.status != Completed {
        return Err(NotCompleted);
      }
      var md := j.result.value;
      var parts := Split(j.dateRange, " to ");
      if |parts| < 2 {
        return Err(MalformedRange);
      }
      var u := store.UpdateTracking(levelId, j.ticker, j.levelPrice, md.fetched.volume, md.fetched.value,
                                    LinkTolerance, parts[0], parts[1], j.isAbsorption, now);
      if u.Err? {
        return Err(TrackingFailed(u.error));
      }
      return Ok(md);
    }
  }

  /** A job started with two valid dates and then run keeps its range, so
      linking it reads back exactly the dates it was started with. */
  lemma LinkReadsStartDates(ticker: string, levelPrice: real, levelId: Option<int>, startDate: string,
                            endDate: string, isAbsorption: bool, f: Result<Fetched, JobFailure>, target: int,
                            hasBaseline: bool)
    requires ParseDate(startDate).Ok? && ParseDate(endDate).Ok?
    ensures var j := NewJob(ticker, levelPrice, levelId, startDate, endDate, isAbsorption);
            Split(AbsorptionRun(j, f, target, hasBaseline).job.dateRange, " to ") == [startDate, endDate]
            && Split(VolumeRun(j, f, Some(target), hasBaseline).job.dateRange, " to ") == [startDate, endDate]
  {
    var j := NewJob(ticker, levelPrice, levelId, startDate, endDate, isAbsorption);
    assert Split(j.dateRange, " to ") == [startDate, endDate];
  }
}
