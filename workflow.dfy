/** The daily announcement pipeline of app/services/announcement_workflow.py:
    three stages, scrape -> classify -> research, each mapping the workflow
    state record to a new one, and the report derived from the final state. */
module Workflow {
  import opened Wrappers
  import opened Dates
  import opened Ranking
  import opened Signals
  import opened Options
  import opened Announcements
  import opened Classifier
  import opened Researcher

  datatype Step = Started | Scraped | ClassifiedStep | CompletedStep | ErrorStep

  function StepLabel(s: Step): string {
    match s
    case Started => "started"
    case Scraped => "scraped"
    case ClassifiedStep => "classified"
    case CompletedStep => "completed"
    case ErrorStep => "error"
  }

  datatype State = State(targetDate: Date, announcements: seq<Announcement>,
                         highVol: seq<Announcement>, researchResults: seq<ResearchResult>,
                         errors: seq<string>, step: Step)

  /** A `BSEEvent` row as the scrape stage reads it; a null text column is "". */
  datatype StoredEvent = StoredEvent(symbol: string, headline: string, eventDate: Option<Date>,
                                     url: string, category: string, source: string)

  /** Everything the stages read besides the state:
      - `ingestFault`: the message of the exception `ingest_bse_announcements`
        raised for the target date, if it raised;
      - `events`: the `bse_events` table after that ingestion, in table order;
      - the two dedup functions, which may raise;
      - the LLM, the classification cap, and the research inputs;
      - `researchFault`: an exception escaping `research_multiple_stocks`. */
  datatype Env = Env(ingestFault: Date -> Option<string>, events: seq<StoredEvent>,
                     preDedup: seq<Announcement> -> Result<seq<Announcement>>,
                     postDedup: seq<Announcement> -> Result<seq<Announcement>>,
                     llm: Llm, maxClassifications: int,
                     prices: seq<PriceRow>, chain: seq<OptionRow>, universe: Option<seq<string>>,
                     technical: TechnicalClassifier, researchFault: Option<string>)

  predicate EnvOk(env: Env) { AllWellFormed(env.prices) }

  /** The stage failure: one message appended, step "error", the rest kept. */
  function Fail(s: State, prefix: string, e: string): (r: State)
    ensures r.errors == s.errors + [prefix + e] && r.step == ErrorStep
  {
    s.(errors := s.errors + [prefix + e], step := ErrorStep)
  }

  /** Two states agree on every field but `errors` and `step`. */
  predicate SameData(r: State, s: State) {
    r.targetDate == s.targetDate && r.announcements == s.announcements
    && r.highVol == s.highVol && r.researchResults == s.researchResults
  }

  /** A stage either leaves `errors` alone or fails with exactly one new message. */
  predicate ErrorsStep(r: State, s: State) {
    if r.step == ErrorStep then |r.errors| == |s.errors| + 1 && r.errors[..|s.errors|] == s.errors
    else r.errors == s.errors
  }

  // ---------------------------------------------------------------- scrape

  /** `event_date >= target - 2 and event_date <= target`; a null date fails both. */
  predicate Recent(e: StoredEvent, target: Date) {
    e.eventDate.Some? && target - 2 <= e.eventDate.value <= target
  }

  function RecentEvents(events: seq<StoredEvent>, target: Date): (r: seq<StoredEvent>)
    ensures |r| <= |events|
    ensures forall e :: e in r <==> e in events && Recent(e, target)
  {
    if events == [] then []
    else RecentEvents(events[..|events| - 1], target)
         + (if Recent(events[|events| - 1], target) then [events[|events| - 1]] else [])
  }

  function EventDateKey(e: StoredEvent): real {
    if e.eventDate.Some? then e.eventDate.value as real else 0.0
  }

  /** The query result, newest first; events of one date keep table order. */
  function QueryEvents(events: seq<StoredEvent>, target: Date): seq<StoredEvent> {
    SortDesc(RecentEvents(events, target), EventDateKey)
  }

  /** The announcement dictionary built from a row: no classification yet. */
  function AsAnnouncement(e: StoredEvent): (a: Announcement)
    ensures a.classification.None? && a.eventDate == e.eventDate
  {
    Announcement(e.symbol, e.headline, e.eventDate, e.url, e.category, e.source, None)
  }

  /** `scrape_announcements`. */
  function Scrape(env: Env, s: State): (r: State)
    ensures SameData(r, s.(announcements := r.announcements)) && ErrorsStep(r, s)
    ensures r.step == ErrorStep <==> env.ingestFault(s.targetDate).Some?
    ensures r.step != ErrorStep ==>
      r.step == Scraped && r.announcements == Map(AsAnnouncement, QueryEvents(env.events, s.targetDate))
    ensures r.step == ErrorStep ==> r.announcements == s.announcements
  {
    match env.ingestFault(s.targetDate)
    case Some(e) => Fail(s, "Scraping error: ", e)
    case None => s.(announcements := Map(AsAnnouncement, QueryEvents(env.events, s.targetDate)), step := Scraped)
  }

  /** The stage with its copy loop over the query result. */
  method ScrapeAnnouncements(env: Env, s: State) returns (r: State)
    ensures r == Scrape(env, s)
  {
    var fault := env.ingestFault(s.targetDate);
    if fault.Some? {
      return s.(errors := s.errors + ["Scraping error: " + fault.value], step := ErrorStep);
    }
    var events := QueryEvents(env.events, s.targetDate);
    var announcements: seq<Announcement> := [];
    for i := 0 to |events|
      invariant announcements == Map(AsAnnouncement, events[..i])
    {
      var e := events[i];
      announcements := announcements + [Announcement(e.symbol, e.headline, e.eventDate, e.url, e.category,
                                                      e.source, None)];
    }
    assert events[..|events|] == events;
    r := s.(announcements := announcements, step := Scraped);
  }

  /** The query returns each recent stored event as often as it is stored,
      and only those, newest first. */
  lemma QueryEventsRecent(events: seq<StoredEvent>, target: Date)
    ensures var q := QueryEvents(events, target);
      && multiset(q) == multiset(RecentEvents(events, target))
      && (forall e :: e in q ==> Recent(e, target))
      && SortedDesc(q, EventDateKey)
  {
    var rec := RecentEvents(events, target);
    SortDescPermutes(rec, EventDateKey);
    assert forall e :: e in QueryEvents(events, target) ==> e in multiset(rec);
  }

  /** Every scraped announcement is an unclassified copy of a stored event dated
      within the two days before the target, and the list is newest first. */
  lemma ScrapedAreRecent(env: Env, s: State)
    requires env.ingestFault(s.targetDate).None?
    ensures var anns := Scrape(env, s).announcements;
      && (forall a :: a in anns ==>
            (a.classification.None? && a.eventDate.Some?
             && s.targetDate - 2 <= a.eventDate.value <= s.targetDate))
      && (forall i, j :: 0 <= i < j < |anns| ==> anns[j].eventDate.value <= anns[i].eventDate.value)
  {
    var q := QueryEvents(env.events, s.targetDate);
    QueryEventsRecent(env.events, s.targetDate);
    var anns := Scrape(env, s).announcements;
    assert anns == Map(AsAnnouncement, q);
    forall k | 0 <= k < |anns|
      ensures anns[k].classification.None? && anns[k].eventDate == q[k].eventDate && Recent(q[k], s.targetDate)
    {
      assert q[k] in q;
    }
    forall i, j | 0 <= i < j < |anns|
      ensures anns[j].eventDate.value <= anns[i].eventDate.value
    {
      assert EventDateKey(q[j]) <= EventDateKey(q[i]);
    }
  }

  // ---------------------------------------------------------------- classify

  /** The LLM calls the classify stage makes: the length of the call trace
      that `FilterHighVolatilityAnnouncements` records for the deduplicated
      list. */
  function ClassifierCalls(env: Env, s: State): (n: nat)
    ensures s.announcements == [] ==> n == 0
    ensures env.maxClassifications >= 0 ==> n <= env.maxClassifications
    ensures s.announcements != [] && env.preDedup(s.announcements).Success? ==>
      n <= |env.preDedup(s.announcements).value|
  {
    if s.announcements == [] then 0
    else match env.preDedup(s.announcements)
      case Failure(_) => 0
      case Success(d) => |Processed(Prefix(d, env.maxClassifications))|
  }

  /** `classify_announcements` with `min_confidence` "medium". */
  function ClassifyStage(env: Env, s: State): (r: State)
    ensures SameData(r, s.(highVol := r.highVol)) && ErrorsStep(r, s)
    ensures s.announcements == [] ==> r.highVol == [] && r.step == ClassifiedStep
    ensures r.step == ErrorStep ==> r.highVol == s.highVol
    ensures r.step != ErrorStep ==> r.step == ClassifiedStep
  {
    if s.announcements == [] then s.(highVol := [], step := ClassifiedStep)
    else match env.preDedup(s.announcements)
      case Failure(e) => Fail(s, "Classification error: ", e)
      case Success(deduplicated) =>
        match env.postDedup(FilterHighVolatility(env.llm, deduplicated, "medium", env.maxClassifications))
        case Failure(e) => Fail(s, "Classification error: ", e)
        case Success(highVol) => s.(highVol := highVol, step := ClassifiedStep)
  }

  /** When the post-classification dedup only drops items, every high-volatility
      item carries a classification of at least medium confidence and a
      non-neutral direction, with its headline copied in. */
  lemma ClassifiedAreSelected(env: Env, s: State)
    requires forall xs :: env.postDedup(xs).Success? ==> forall a :: a in env.postDedup(xs).value ==> a in xs
    ensures var r := ClassifyStage(env, s);
      r.step == ClassifiedStep ==> forall a :: a in r.highVol ==>
        && a.classification.Some? && ConfidenceLevel(a.classification.value.confidence.Get(Low)) >= 2
        && a.classification.value.aiDirection.Get(Neutral) != Some(Neutral)
        && a.classification.value.headline == Present(a.headline)
  {
    if s.announcements != [] && env.preDedup(s.announcements).Success? {
      var d := env.preDedup(s.announcements).value;
      var f := FilterHighVolatility(env.llm, d, "medium", env.maxClassifications);
      assert MinLevel("medium") == 2;
      assert forall a :: a in f ==> a.classification.Some? && Selected(a.classification.value, 2);
    }
  }

  // ---------------------------------------------------------------- research

  /** `research_stocks`. */
  function ResearchStage(env: Env, s: State): (r: State)
    requires EnvOk(env)
    ensures SameData(r, s.(researchResults := r.researchResults)) && ErrorsStep(r, s)
    ensures s.highVol == [] ==> r.researchResults == [] && r.step == CompletedStep
    ensures r.step == ErrorStep ==> r.researchResults == s.researchResults
    ensures r.step != ErrorStep ==>
      r.step == CompletedStep && |r.researchResults| <= |s.highVol|
      && SortedDesc(r.researchResults, ConfidenceKey)
  {
    if s.highVol == [] then s.(researchResults := [], step := CompletedStep)
    else if env.researchFault.Some? then Fail(s, "Research error: ", env.researchFault.value)
    else s.(researchResults := ResearchMany(env.prices, env.chain, env.universe, env.technical, s.highVol),
            step := CompletedStep)
  }

  // ---------------------------------------------------------------- graph

  function Initial(targetDate: Date): (s: State)
    ensures s.announcements == [] && s.highVol == [] && s.researchResults == [] && s.errors == []
  {
    State(targetDate, [], [], [], [], Started)
  }

  /** The compiled graph: scrape, then classify, then research, whatever each
      stage's step says. */
  function RunGraph(env: Env, s: State): (r: State)
    requires EnvOk(env)
    ensures r.targetDate == s.targetDate
    ensures |s.errors| <= |r.errors| <= |s.errors| + 3 && r.errors[..|s.errors|] == s.errors
  {
    var s1 := Scrape(env, s);
    var s2 := ClassifyStage(env, s1);
    var s3 := ResearchStage(env, s2);
    assert s3.errors[..|s2.errors|] == s2.errors;
    assert s2.errors[..|s1.errors|] == s1.errors;
    s3
  }

  /** A failed scrape does not stop the graph: classify sees the initial empty
      list, research sees no high-volatility items, and the run ends with step
      "completed" and the scraping message as the only error. */
  lemma ScrapeFailureStillCompletes(env: Env, targetDate: Date)
    requires EnvOk(env) && env.ingestFault(targetDate).Some?
    ensures var r := RunGraph(env, Initial(targetDate));
      && r.step == CompletedStep && r.errors == ["Scraping error: " + env.ingestFault(targetDate).value]
      && r.announcements == [] && r.highVol == [] && r.researchResults == []
  {
  }

  /** The final step is "error" only when the research stage itself failed. */
  lemma FinalStepIsResearchStep(env: Env, s: State)
    requires EnvOk(env)
    ensures var r := RunGraph(env, s);
      r.step == CompletedStep || (r.step == ErrorStep && |r.errors| > |s.errors|)
  {
  }

  // ---------------------------------------------------------------- report

  datatype Summary = Summary(totalAnnouncements: nat, highVolCount: nat, researchedCount: nat,
                             tradeReadyCount: nat)

  /** The dictionary `run_daily_announcement_pipeline` returns: the normal report,
      or the one built when the graph raised. */
  datatype Report =
    | Finished(targetDate: Date, announcements: seq<Announcement>, highVol: seq<Announcement>,
               researchResults: seq<ResearchResult>, tradeRecommendations: seq<ResearchResult>,
               errors: seq<string>, summary: Summary)
    | Crashed(targetDate: Date, error: string, announcements: seq<Announcement>,
              highVol: seq<Announcement>, researchResults: seq<ResearchResult>,
              tradeRecommendations: seq<ResearchResult>)

  /** The trade-ready results, in their order. */
  function TradeReadyOnly(rs: seq<ResearchResult>): (t: seq<ResearchResult>)
    ensures |t| <= |rs|
    ensures forall r :: r in t <==> r in rs && r.recommendation.tradeReady
  {
    if rs == [] then []
    else TradeReadyOnly(rs[..|rs| - 1])
         + (if rs[|rs| - 1].recommendation.tradeReady then [rs[|rs| - 1]] else [])
  }

  lemma {:induction false} TradeReadyOnlyIsSubsequence(rs: seq<ResearchResult>)
    ensures Subsequence(TradeReadyOnly(rs), rs)
  {
    if rs != [] {
      var init := rs[..|rs| - 1];
      var last := rs[|rs| - 1];
      TradeReadyOnlyIsSubsequence(init);
      assert init + [last] == rs;
      if last.recommendation.tradeReady {
        assert TradeReadyOnly(rs) == TradeReadyOnly(init) + [last];
        SubsequenceKeepLast(TradeReadyOnly(init), init, last);
      } else {
        assert TradeReadyOnly(rs) == TradeReadyOnly(init);
        SubsequenceExtend(TradeReadyOnly(init), init, last);
      }
    }
  }

  /** `run_daily_announcement_pipeline`: the target defaults to today;
      `graphFault` is an exception raised by the graph runtime itself. */
  function RunDailyPipeline(env: Env, targetDate: Option<Date>, today: Date, graphFault: Option<string>)
    : (rep: Report)
    requires EnvOk(env)
    ensures rep.targetDate == targetDate.GetOr(today)
    ensures rep.Crashed? <==> graphFault.Some?
    ensures rep.Crashed? ==>
      rep.announcements == [] && rep.highVol == [] && rep.researchResults == [] && rep.tradeRecommendations == []
    ensures rep.Finished? ==>
      && rep.summary.totalAnnouncements == |rep.announcements|
      && rep.summary.highVolCount == |rep.highVol|
      && rep.summary.researchedCount == |rep.researchResults|
      && rep.summary.tradeReadyCount == |rep.tradeRecommendations|
      && rep.summary.tradeReadyCount <= rep.summary.researchedCount
      && (forall r :: r in rep.tradeRecommendations <==> r in rep.researchResults && r.recommendation.tradeReady)
  {
    var target := targetDate.GetOr(today);
    match graphFault
    case Some(e) => Crashed(target, e, [], [], [], [])
    case None =>
      var f := RunGraph(env, Initial(target));
      var trade := TradeReadyOnly(f.researchResults);
      Finished(target, f.announcements, f.highVol, f.researchResults, trade, f.errors,
               Summary(|f.announcements|, |f.highVol|, |f.researchResults|, |trade|))
  }

  /** From the initial state no more results are researched than there are
      high-volatility announcements, and every trade recommendation has a score
      of at least 60 and a liquidity block with positive open interest. */
  lemma ReportCountsAndRecommendations(env: Env, targetDate: Option<Date>, today: Date)
    requires EnvOk(env)
    ensures var rep := RunDailyPipeline(env, targetDate, today, None);
      && rep.summary.tradeReadyCount <= rep.summary.researchedCount <= rep.summary.highVolCount
      && |rep.errors| <= 3
      && forall r :: r in rep.tradeRecommendations ==>
           r.recommendation.confidenceScore >= 60 && r.liquidity.totalOi > 0.0
  {
    var s0 := Initial(targetDate.GetOr(today));
    var s2 := ClassifyStage(env, Scrape(env, s0));
    var f := ResearchStage(env, s2);
    assert f == RunGraph(env, s0);
    if f.researchResults != [] {
      assert f.researchResults == ResearchMany(env.prices, env.chain, env.universe, env.technical, s2.highVol);
      ResearchManyFromResearch(env, s2.highVol);
    }
  }

  /** Every batch result that is trade-ready has a score of at least 60 and
      positive open interest. */
  lemma ResearchManyFromResearch(env: Env, anns: seq<Announcement>)
    requires EnvOk(env)
    ensures forall r :: (r in ResearchMany(env.prices, env.chain, env.universe, env.technical, anns)
                         && r.recommendation.tradeReady) ==>
                        r.recommendation.confidenceScore >= 60 && r.liquidity.totalOi > 0.0
  {
    var c := CollectResearch(env.prices, env.chain, env.universe, env.technical, anns);
    ResearchManyPermutes(env.prices, env.chain, env.universe, env.technical, anns);
    forall r | r in ResearchMany(env.prices, env.chain, env.universe, env.technical, anns)
      && r.recommendation.tradeReady
      ensures r.recommendation.confidenceScore >= 60 && r.liquidity.totalOi > 0.0
    {
      assert r in multiset(c);
      var a :| a in anns && ResearchOne(env.prices, env.chain, env.universe, env.technical, a) == Some(r);
      TradeReadyMeansLiquid(env.prices, env.chain, env.universe, env.technical, a.symbol, a.eventDate.value,
                            a.classification.GetOr(NoClassification));
    }
  }
}
