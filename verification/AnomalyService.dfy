/** `azure_anomaly/service.py`: bounded windows per symbol, alerts, and their lazy persistence. */
module AnomalyService {
  import opened PyText
  import opened Numbers
  import opened Schemas
  import opened AnomalyMath

  datatype Severity = Low | Medium | High | Critical

  datatype AlertStatus = PendingReview | Confirmed | FalsePositive | Dismissed

  datatype Alert = Alert(
    alertId: PyStr,
    eventId: PyStr,
    symbol: PyStr,
    severity: Severity,
    score: real,
    reason: seq<Part>,
    status: AlertStatus,
    createdAt: PyStr)

  /** A part of an alert's reason; the scores are printed to two decimals. */
  datatype Part = PriceSpike | VolumeSurge | ForestOutlier | CombinedDeviation | RuleIs(score: real) | ModelIs(score: real)

  datatype Review = Review(reviewer: PyStr, status: AlertStatus, notes: Option<PyStr>, reviewedAt: PyStr)

  /** What the ledger is told: an alert was made, or one was reviewed. */
  datatype Note = Created(alert: Alert) | Reviewed(alertId: PyStr, review: Review)

  type Windows = map<PyStr, seq<Features>>

  datatype Saved = Saved(alerts: map<PyStr, Alert>, history: Windows)

  function WindowValue(event: MarketEvent, key: string): real {
    if key in event.window then event.window[key] else 0.0
  }

  function FeaturesOf(event: MarketEvent): Features {
    Features(WindowValue(event, PRICE_CHANGE), WindowValue(event, VOLUME_CHANGE), event.price, event.volume)
  }

  /** `_model_score`, from the raw score of the isolation forest. */
  function ModelScore(raw: Option<real>, samples: nat): real {
    if raw == None || samples < 12 then 0.0
    else Min(1.0, Max(0.0, (raw.value - 0.35) / 0.35))
  }

  function SeverityOf(score: real): Severity {
    if score >= 0.95 then Critical else if score >= 0.9 then High else if score >= 0.85 then Medium else Low
  }

  function When<T>(b: bool, x: T): seq<T> {
    if b then [x] else []
  }

  /** `_reason`: what stands out, or that nothing does by itself; then the scores. */
  function ReasonFor(f: Features, rule: real, model: real): seq<Part> {
    var parts := When(Abs(f.priceChange) >= 0.03, PriceSpike) + When(Abs(f.volumeChange) >= 0.2, VolumeSurge)
                 + When(model >= 0.8, ForestOutlier);
    (if parts == [] then [CombinedDeviation] else parts) + [RuleIs(rule)] + When(model > 0.0, ModelIs(model))
  }

  /** What a `deque` with this bound holds after these appends. */
  function Last<T>(xs: seq<T>, bound: nat): (r: seq<T>)
    ensures |r| == if |xs| < bound then |xs| else bound
  {
    if |xs| <= bound then xs else xs[|xs| - bound..]
  }

  /** One `append` to a bounded deque. */
  function Push<T>(window: seq<T>, x: T, bound: nat): seq<T> {
    if bound == 0 then []
    else if |window| < bound then window + [x]
    else window[|window| + 1 - bound..] + [x]
  }

  /** Appending to the window is appending to the whole log and looking at its end. */
  lemma PushIsLast<T>(log: seq<T>, x: T, bound: nat)
    ensures Push(Last(log, bound), x, bound) == Last(log + [x], bound)
  {
  }

  lemma LastOfLast<T>(log: seq<T>, bound: nat)
    ensures Last(Last(log, bound), bound) == Last(log, bound)
  {
  }

  function WindowOf<T>(windows: map<PyStr, seq<T>>, symbol: PyStr): seq<T> {
    if symbol in windows then windows[symbol] else []
  }

  /** The windows of whole logs. */
  ghost function WindowsOf(logs: Windows, bound: nat): Windows {
    map s | s in logs :: Last(logs[s], bound)
  }

  lemma WindowsOfUpdate(logs: Windows, symbol: PyStr, log: seq<Features>, bound: nat)
    ensures WindowsOf(logs[symbol := log], bound) == WindowsOf(logs, bound)[symbol := Last(log, bound)]
  {
  }

  /** `logs` continue the older ones. */
  ghost predicate Continues(older: Windows, logs: Windows) {
    forall s :: s in older ==> s in logs && older[s] <= logs[s]
  }

  function RuleScoreOf(event: MarketEvent, window: seq<Features>, priceSigma: real, volumeSigma: real): real {
    RuleScore(FeaturesOf(event), window, priceSigma, volumeSigma)
  }

  function ScoreOf(event: MarketEvent, window: seq<Features>, priceSigma: real, volumeSigma: real, forest: Option<real>): real {
    Max(RuleScoreOf(event, window, priceSigma, volumeSigma), ModelScore(forest, |window|))
  }

  function AlertFor(event: MarketEvent, window: seq<Features>, threshold: real, priceSigma: real, volumeSigma: real,
                    forest: Option<real>, id: PyStr, at: PyStr): Option<Alert>
  {
    var score := ScoreOf(event, window, priceSigma, volumeSigma, forest);
    if score < threshold then None
    else
      var reason := ReasonFor(FeaturesOf(event), RuleScoreOf(event, window, priceSigma, volumeSigma),
                              ModelScore(forest, |window|));
      Some(Alert(id, event.eventId, event.symbol, SeverityOf(score), Round4(score), reason, PendingReview, at))
  }

  predicate Raises(event: MarketEvent, window: seq<Features>, threshold: real, priceSigma: real, volumeSigma: real,
                   forest: Option<real>)
  {
    ScoreOf(event, window, priceSigma, volumeSigma, forest) >= threshold
  }

  /** Both moves of `f` are at least those of `e`. */
  predicate MovesMore(e: MarketEvent, f: MarketEvent) {
    && Abs(WindowValue(e, PRICE_CHANGE)) <= Abs(WindowValue(f, PRICE_CHANGE))
    && Abs(WindowValue(e, VOLUME_CHANGE)) <= Abs(WindowValue(f, VOLUME_CHANGE))
  }

  /** The forest scores the event itself, so it can be silent about the larger of two moves and loud about the smaller. */
  lemma ForestDecidesAlone(event: MarketEvent, window: seq<Features>, threshold: real, priceSigma: real, volumeSigma: real)
    requires |window| >= 12 && threshold <= 1.0
    ensures Raises(event, window, threshold, priceSigma, volumeSigma, Some(0.7))
    ensures Raises(event, window, threshold, priceSigma, volumeSigma, Some(0.35))
            <==> RuleScoreOf(event, window, priceSigma, volumeSigma) >= threshold
  {
    ScoreRangeAndMonotone(FeaturesOf(event), FeaturesOf(event), window, priceSigma, volumeSigma);
  }

  /** An alert is raised whatever the forest says of the event iff the rule score alone reaches the threshold. */
  lemma RaisesWhateverForestIff(event: MarketEvent, window: seq<Features>, threshold: real, priceSigma: real, volumeSigma: real)
    ensures (forall raw: real :: Raises(event, window, threshold, priceSigma, volumeSigma, Some(raw)))
            <==> RuleScoreOf(event, window, priceSigma, volumeSigma) >= threshold
  {
    ScoreRangeAndMonotone(FeaturesOf(event), FeaturesOf(event), window, priceSigma, volumeSigma);
    if RuleScoreOf(event, window, priceSigma, volumeSigma) < threshold {
      assert !Raises(event, window, threshold, priceSigma, volumeSigma, Some(0.35));
    }
  }

  /**
   Every event with moves at least as large raises an alert, whatever the forest
   says of each, iff the rule score of the smallest alone reaches the threshold.
   */
  lemma LargerMovesAlertIff(e: MarketEvent, window: seq<Features>, threshold: real, priceSigma: real, volumeSigma: real)
    ensures (forall f, raw: real :: MovesMore(e, f) ==> Raises(f, window, threshold, priceSigma, volumeSigma, Some(raw)))
            <==> RuleScoreOf(e, window, priceSigma, volumeSigma) >= threshold
  {
    RaisesWhateverForestIff(e, window, threshold, priceSigma, volumeSigma);
    assert MovesMore(e, e);
    forall f | MovesMore(e, f)
      ensures RuleScoreOf(e, window, priceSigma, volumeSigma) <= RuleScoreOf(f, window, priceSigma, volumeSigma)
    {
      ScoreRangeAndMonotone(FeaturesOf(e), FeaturesOf(f), window, priceSigma, volumeSigma);
    }
  }

  /**
   With `e` having raised an alert, `f` in its place would have raised one too,
   whatever the forest: fitted to one window, it scores an event by its features.
   */
  ghost predicate AlertSurvives(e: MarketEvent, f: MarketEvent, window: seq<Features>, threshold: real,
                                priceSigma: real, volumeSigma: real)
  {
    forall forest: Features -> real ::
      Raises(e, window, threshold, priceSigma, volumeSigma, Some(forest(FeaturesOf(e)))) ==>
      Raises(f, window, threshold, priceSigma, volumeSigma, Some(forest(FeaturesOf(f))))
  }

  /**
   Larger moves can undo an alert: they cannot iff the features are the same, the
   window is too short for the forest, no score reaches the threshold, or the rule
   score of the larger does.
   */
  lemma AlertSurvivesLargerMovesIff(e: MarketEvent, f: MarketEvent, window: seq<Features>, threshold: real,
                                    priceSigma: real, volumeSigma: real)
    requires MovesMore(e, f)
    ensures AlertSurvives(e, f, window, threshold, priceSigma, volumeSigma) <==>
            || FeaturesOf(e) == FeaturesOf(f)
            || |window| < 12 || threshold > 1.0
            || RuleScoreOf(f, window, priceSigma, volumeSigma) >= threshold
  {
    ScoreRangeAndMonotone(FeaturesOf(e), FeaturesOf(f), window, priceSigma, volumeSigma);
    if FeaturesOf(e) != FeaturesOf(f) && |window| >= 12 && threshold <= 1.0 {
      var forest := (x: Features) => if x == FeaturesOf(e) then 0.7 else 0.35;
      ForestDecidesAlone(e, window, threshold, priceSigma, volumeSigma);
      ForestDecidesAlone(f, window, threshold, priceSigma, volumeSigma);
      RaisesWhateverForestIff(f, window, threshold, priceSigma, volumeSigma);
      assert forest(FeaturesOf(e)) == 0.7 && forest(FeaturesOf(f)) == 0.35;
    }
  }

  /** The deciding score lies in [0, 1] and grows with the forest's raw score; an alert is raised iff it reaches the threshold. */
  lemma AlertIffScoreReaches(event: MarketEvent, window: seq<Features>, threshold: real, priceSigma: real, volumeSigma: real,
                             forest: Option<real>, id: PyStr, at: PyStr)
    ensures 0.0 <= ScoreOf(event, window, priceSigma, volumeSigma, forest) <= 1.0
    ensures AlertFor(event, window, threshold, priceSigma, volumeSigma, forest, id, at).Some?
            <==> Raises(event, window, threshold, priceSigma, volumeSigma, forest)
    ensures forall raw: real :: forest.Some? && forest.value <= raw ==>
              ScoreOf(event, window, priceSigma, volumeSigma, forest)
              <= ScoreOf(event, window, priceSigma, volumeSigma, Some(raw))
  {
    ScoreRangeAndMonotone(FeaturesOf(event), FeaturesOf(event), window, priceSigma, volumeSigma);
  }

  // ----- what an alert says ----------------------------------------------------------

  /** The model score goes from 0 to 1 between the raw scores 0.35 and 0.7, and takes twelve samples. */
  lemma ModelScoreIs(raw: real, samples: nat)
    ensures samples < 12 || raw <= 0.35 ==> ModelScore(Some(raw), samples) == 0.0
    ensures samples >= 12 && 0.35 <= raw <= 0.7 ==> 0.35 * ModelScore(Some(raw), samples) == raw - 0.35
    ensures samples >= 12 && raw >= 0.7 ==> ModelScore(Some(raw), samples) == 1.0
    ensures ModelScore(None, samples) == 0.0
  {
  }

  /** The reason names what is beyond its own mark, or says that nothing is. */
  predicate ReasonSays(reason: seq<Part>, f: Features, raw: Option<real>, samples: nat) {
    var outlier := raw.Some? && samples >= 12 && raw.value >= 0.63;
    && (PriceSpike in reason <==> Abs(f.priceChange) >= 0.03)
    && (VolumeSurge in reason <==> Abs(f.volumeChange) >= 0.2)
    && (ForestOutlier in reason <==> outlier)
    && (CombinedDeviation in reason <==> Abs(f.priceChange) < 0.03 && Abs(f.volumeChange) < 0.2 && !outlier)
  }

  predicate SeveritySays(severity: Severity, score: real) {
    && (severity == Critical <==> score >= 0.95)
    && (severity == High <==> 0.9 <= score < 0.95)
    && (severity == Medium <==> 0.85 <= score < 0.9)
    && (severity == Low <==> score < 0.85)
  }

  /** What an alert says of the event and of the score that raised it. */
  predicate AlertSays(a: Alert, event: MarketEvent, score: real, rule: real, forest: Option<real>, samples: nat,
                      id: PyStr, at: PyStr)
  {
    && a.alertId == id && a.eventId == event.eventId && a.symbol == event.symbol && a.createdAt == at
    && a.status == PendingReview && SeveritySays(a.severity, score) && Abs(a.score - score) <= 0.00005
    && ReasonSays(a.reason, FeaturesOf(event), forest, samples) && RuleIs(rule) in a.reason
  }

  lemma ReasonNames(f: Features, rule: real, forest: Option<real>, samples: nat)
    ensures ReasonSays(ReasonFor(f, rule, ModelScore(forest, samples)), f, forest, samples)
    ensures RuleIs(rule) in ReasonFor(f, rule, ModelScore(forest, samples))
  {
    var model := ModelScore(forest, samples);
    var parts := When(Abs(f.priceChange) >= 0.03, PriceSpike) + When(Abs(f.volumeChange) >= 0.2, VolumeSurge)
                 + When(model >= 0.8, ForestOutlier);
    var named := if parts == [] then [CombinedDeviation] else parts;
    if forest.Some? {
      ModelScoreIs(forest.value, samples);
    }
    assert ReasonFor(f, rule, model) == named + [RuleIs(rule)] + When(model > 0.0, ModelIs(model));
    PartsNamed(f, model, parts);
  }

  lemma PartsNamed(f: Features, model: real, parts: seq<Part>)
    requires parts == When(Abs(f.priceChange) >= 0.03, PriceSpike) + When(Abs(f.volumeChange) >= 0.2, VolumeSurge)
                      + When(model >= 0.8, ForestOutlier)
    ensures PriceSpike in parts <==> Abs(f.priceChange) >= 0.03
    ensures VolumeSurge in parts <==> Abs(f.volumeChange) >= 0.2
    ensures ForestOutlier in parts <==> model >= 0.8
    ensures CombinedDeviation !in parts
    ensures parts == [] <==> Abs(f.priceChange) < 0.03 && Abs(f.volumeChange) < 0.2 && model < 0.8
  {
    var a, b, c := When(Abs(f.priceChange) >= 0.03, PriceSpike), When(Abs(f.volumeChange) >= 0.2, VolumeSurge),
                   When(model >= 0.8, ForestOutlier);
    forall x: Part
      ensures x in parts <==> x in a || x in b || x in c
    {
    }
  }

  /** If there is an alert, it says so. */
  predicate Explained(r: Option<Alert>, event: MarketEvent, window: seq<Features>, priceSigma: real, volumeSigma: real,
                      forest: Option<real>, id: PyStr, at: PyStr)
  {
    r.Some? ==>
      AlertSays(r.value, event, ScoreOf(event, window, priceSigma, volumeSigma, forest),
                RuleScoreOf(event, window, priceSigma, volumeSigma), forest, |window|, id, at)
  }

  lemma SeverityTells(score: real)
    ensures SeveritySays(SeverityOf(score), score)
  {
  }

  lemma AlertOfScore(event: MarketEvent, score: real, rule: real, forest: Option<real>, samples: nat, id: PyStr, at: PyStr)
    ensures AlertSays(Alert(id, event.eventId, event.symbol, SeverityOf(score), Round4(score),
                            ReasonFor(FeaturesOf(event), rule, ModelScore(forest, samples)), PendingReview, at),
                      event, score, rule, forest, samples, id, at)
  {
    SeverityTells(score);
    Round4IsClose(score);
    ReasonNames(FeaturesOf(event), rule, forest, samples);
  }

  lemma AlertTells(event: MarketEvent, window: seq<Features>, threshold: real, priceSigma: real, volumeSigma: real,
                   forest: Option<real>, id: PyStr, at: PyStr)
    ensures Explained(AlertFor(event, window, threshold, priceSigma, volumeSigma, forest, id, at),
                      event, window, priceSigma, volumeSigma, forest, id, at)
  {
    AlertOfScore(event, ScoreOf(event, window, priceSigma, volumeSigma, forest),
                 RuleScoreOf(event, window, priceSigma, volumeSigma), forest, |window|, id, at);
  }

  /** Before any sample, an event raises an alert whatever the forest says iff eight price moves and three volume moves reach the threshold. */
  lemma RaisesWithoutSamplesIff(event: MarketEvent, threshold: real, priceSigma: real, volumeSigma: real)
    requires threshold <= 1.0
    ensures (forall raw: real :: Raises(event, [], threshold, priceSigma, volumeSigma, Some(raw))) <==>
            8.0 * Abs(WindowValue(event, PRICE_CHANGE)) + 3.0 * Abs(WindowValue(event, VOLUME_CHANGE)) >= threshold
  {
    RaisesWhateverForestIff(event, [], threshold, priceSigma, volumeSigma);
    ScoreWithoutSamples(FeaturesOf(event), priceSigma, volumeSigma);
  }

  class Service {
    const threshold: real
    const bound: nat
    var history: Windows
    var alerts: map<PyStr, Alert>
    var disk: Saved
    var notes: seq<Note>
    /** Every sample analysed, by symbol, that no restart has lost; and what was so at the last save. */
    ghost var logs: Windows
    ghost var savedLogs: Windows

    /** The windows refine the logs, alerts on disk are those in memory, samples on disk those of the last save. */
    ghost predicate Valid()
      reads this
    {
      && history == WindowsOf(logs, bound)
      && disk == Saved(alerts, WindowsOf(savedLogs, bound))
      && Continues(savedLogs, logs)
    }

    /** Starting without saved state; by default the threshold is 0.82 and the bound 60. */
    constructor (threshold: real, bound: nat)
      ensures Valid() && this.threshold == threshold && this.bound == bound
      ensures alerts == map[] && logs == map[] && notes == []
    {
      this.threshold, this.bound := threshold, bound;
      history, alerts, disk, notes := map[], map[], Saved(map[], map[]), [];
      logs, savedLogs := map[], map[];
    }

    method SaveState()
      requires history == WindowsOf(logs, bound)
      modifies this`disk, this`savedLogs
      ensures Valid() && savedLogs == logs
    {
      disk := Saved(alerts, history);
      savedLogs := logs;
    }

    /** `_reason`. */
    method Reason(features: Features, rule: real, model: real) returns (parts: seq<Part>)
      ensures parts == ReasonFor(features, rule, model)
    {
      parts := [];
      if Abs(features.priceChange) >= 0.03 {
        parts := parts + [PriceSpike];
      }
      if Abs(features.volumeChange) >= 0.2 {
        parts := parts + [VolumeSurge];
      }
      if model >= 0.8 {
        parts := parts + [ForestOutlier];
      }
      if parts == [] {
        parts := [CombinedDeviation];
      }
      parts := parts + [RuleIs(rule)];
      if model > 0.0 {
        parts := parts + [ModelIs(model)];
      }
    }

    /** The alert that an event raises against the window before it, if any. */
    method Decide(event: MarketEvent, priceSigma: real, volumeSigma: real, forest: Option<real>, id: PyStr, at: PyStr)
      returns (r: Option<Alert>)
      ensures r == AlertFor(event, WindowOf(history, event.symbol), threshold, priceSigma, volumeSigma, forest, id, at)
      ensures Explained(r, event, WindowOf(history, event.symbol), priceSigma, volumeSigma, forest, id, at)
    {
      var window := WindowOf(history, event.symbol);
      AlertTells(event, window, threshold, priceSigma, volumeSigma, forest, id, at);
      var rule := RuleScore(FeaturesOf(event), window, priceSigma, volumeSigma);
      var model := ModelScore(forest, |window|);
      var score := Max(rule, model);
      if score < threshold {
        return None;
      }
      var reason := Reason(FeaturesOf(event), rule, model);
      r := Some(Alert(id, event.eventId, event.symbol, SeverityOf(score), Round4(score), reason, PendingReview, at));
    }

    /** The event's sample enters its window. */
    method Remember(symbol: PyStr, features: Features)
      requires Valid()
      modifies this`history, this`logs
      ensures Valid() && logs == old(logs)[symbol := WindowOf(old(logs), symbol) + [features]]
    {
      ghost var log := WindowOf(logs, symbol) + [features];
      PushIsLast(WindowOf(logs, symbol), features, bound);
      assert WindowOf(history, symbol) == Last(WindowOf(logs, symbol), bound);
      WindowsOfUpdate(logs, symbol, log, bound);
      history := history[symbol := Push(WindowOf(history, symbol), features, bound)];
      logs := logs[symbol := log];
    }

    /**
     `analyze_event`. The sigmas are what `pstdev` returns on the window's moves,
     `forest` the isolation forest's raw score, None without the library.
     */
    method AnalyzeEvent(event: MarketEvent, priceSigma: real, volumeSigma: real, forest: Option<real>, id: PyStr, at: PyStr)
      returns (r: Option<Alert>)
      requires Valid()
      modifies this
      ensures Valid()
      // the sample is logged, alert or not
      ensures logs == old(logs)[event.symbol := WindowOf(old(logs), event.symbol) + [FeaturesOf(event)]]
      ensures r == AlertFor(event, Last(WindowOf(old(logs), event.symbol), bound), threshold,
                            priceSigma, volumeSigma, forest, id, at)
      ensures Explained(r, event, Last(WindowOf(old(logs), event.symbol), bound), priceSigma, volumeSigma, forest, id, at)
      // only an alert is saved, and it brings the samples on disk up to date
      ensures r == None ==>
                alerts == old(alerts) && disk == old(disk) && savedLogs == old(savedLogs) && notes == old(notes)
      ensures r.Some? ==>
                alerts == old(alerts)[id := r.value] && savedLogs == logs && notes == old(notes) + [Created(r.value)]
    {
      assert WindowOf(history, event.symbol) == Last(WindowOf(logs, event.symbol), bound);
      r := Decide(event, priceSigma, volumeSigma, forest, id, at);
      Remember(event.symbol, FeaturesOf(event));
      if r.Some? {
        Announce(id, r.value);
      }
    }

    /** An alert is kept, saved, and noted in the ledger. */
    method Announce(id: PyStr, alert: Alert)
      requires history == WindowsOf(logs, bound)
      modifies this`alerts, this`disk, this`savedLogs, this`notes
      ensures Valid() && alerts == old(alerts)[id := alert] && savedLogs == logs && notes == old(notes) + [Created(alert)]
    {
      alerts := alerts[id := alert];
      SaveState();
      notes := notes + [Created(alert)];
    }

    /** `review_alert`; None for an unknown alert, where the source raises. */
    method ReviewAlert(alertId: PyStr, review: Review) returns (r: Option<Alert>)
      requires Valid()
      modifies this
      ensures Valid() && logs == old(logs)
      ensures alertId !in old(alerts) ==> r == None && alerts == old(alerts) && disk == old(disk)
                                          && savedLogs == old(savedLogs) && notes == old(notes)
      ensures alertId in old(alerts) ==>
                && r == Some(old(alerts)[alertId].(status := review.status))
                && alerts == old(alerts)[alertId := r.value] && savedLogs == logs
                && notes == old(notes) + [Reviewed(alertId, review)]
    {
      if alertId !in alerts {
        return None;
      }
      var updated := alerts[alertId].(status := review.status);
      alerts := alerts[alertId := updated];
      SaveState();
      notes := notes + [Reviewed(alertId, review)];
      r := Some(updated);
    }

    /** A stop and `_load_state`: no alert and no review is lost, only samples since the last save. */
    method Restart()
      requires Valid()
      modifies this`history, this`alerts, this`logs
      ensures Valid() && alerts == old(alerts) && logs == savedLogs
    {
      alerts := disk.alerts;
      history := map s | s in disk.history :: Last(disk.history[s], bound);
      logs := savedLogs;
      forall s | s in savedLogs
        ensures Last(disk.history[s], bound) == Last(savedLogs[s], bound)
      {
        LastOfLast(savedLogs[s], bound);
      }
      assert history == WindowsOf(logs, bound);
    }
  }
}
