/**
 * The anomaly detector: a small state machine over two scalers and two isolation forests
 * (untrained, then trained by `train` or `load_models`), the guarded scoring of one snapshot that
 * ORs the two detectors' verdicts and takes the minimum of their scores, and the weekly training
 * entry point. The scaler and the forest are foreign: a fitted scaler is an opaque value of type
 * `S`, a fitted forest one of type `F`, and their operations are the functions of an `Sklearn`
 * record, each of which may fail.
 */
module Anomaly {
  import opened Wrappers
  import opened Metrics
  import TrafficAnalyzer

  type Row = seq<real>
  type Matrix = seq<Row>

  /**
   * The library calls the detector makes: `fit` of a `StandardScaler`, `transform` with fitted
   * scaler parameters, `fit` of an `IsolationForest`, and its `predict` (1 normal, -1 anomalous)
   * and `score_samples` (lower is more anomalous).
   */
  datatype Sklearn<!S, !F> = Sklearn(
    fitScaler: Matrix -> Result<S>,
    transform: (S, Matrix) -> Result<Matrix>,
    fitForest: Matrix -> Result<F>,
    predict: (F, Matrix) -> Result<seq<int>>,
    scoreSamples: (F, Matrix) -> Result<seq<real>>)

  /**
   * What an attribute holds: `None`, a freshly constructed estimator that has not been fitted,
   * or a fitted one.
   */
  datatype Slot<T> = Unset | Unfitted | Fitted(fit: T)

  /**
   * The model directory as `load_models` sees it: whether the two model files exist, and what
   * each of the four `joblib.load` calls yields (a failure for a missing or unreadable file).
   */
  datatype ModelFiles<S, F> = ModelFiles(
    trafficModelExists: bool,
    latencyModelExists: bool,
    trafficModel: Result<F>,
    latencyModel: Result<F>,
    trafficScaler: Result<S>,
    latencyScaler: Result<S>)

  /** The dictionary `detect_anomalies` returns; the two sub-scores and the error are optional keys. */
  datatype AnomalyResult = AnomalyResult(
    isAnomaly: bool,
    trafficAnomaly: bool,
    latencyAnomaly: bool,
    anomalyScore: real,
    trafficScore: Option<real>,
    latencyScore: Option<real>,
    error: Option<string>)

  /** The answer when no verdict can be given: nothing anomalous, score 0, and the error if any. */
  function Neutral(error: Option<string>): (r: AnomalyResult)
    ensures !r.isAnomaly && !r.trafficAnomaly && !r.latencyAnomaly && r.anomalyScore == 0.0
    ensures r.trafficScore.None? && r.latencyScore.None? && r.error == error
  {
    AnomalyResult(false, false, false, 0.0, None, None, error)
  }

  /** `[incoming_traffic, outgoing_traffic, active_connections]` */
  function TrafficFeatures(m: Snapshot): (r: Row)
    ensures |r| == 3
    ensures r[0] == m.incomingTraffic && r[1] == m.outgoingTraffic && r[2] == m.activeConnections as real
  {
    [m.incomingTraffic, m.outgoingTraffic, m.activeConnections as real]
  }

  /** `[average_latency, packet_loss]` */
  function LatencyFeatures(m: Snapshot): (r: Row)
    ensures |r| == 2
    ensures r[0] == m.averageLatency && r[1] == m.packetLoss
  {
    [m.averageLatency, m.packetLoss]
  }

  /** The training matrix of the traffic model: one feature row per metric, in order. */
  function TrafficMatrix(ms: seq<Snapshot>): (x: Matrix)
    ensures |x| == |ms| && forall k :: 0 <= k < |ms| ==> x[k] == TrafficFeatures(ms[k])
  {
    seq(|ms|, k requires 0 <= k < |ms| => TrafficFeatures(ms[k]))
  }

  /** The training matrix of the latency model. */
  function LatencyMatrix(ms: seq<Snapshot>): (x: Matrix)
    ensures |x| == |ms| && forall k :: 0 <= k < |ms| ==> x[k] == LatencyFeatures(ms[k])
  {
    seq(|ms|, k requires 0 <= k < |ms| => LatencyFeatures(ms[k]))
  }

  /** Scoring one snapshot uses the very row its training matrix would hold for it. */
  lemma FeaturesAgree(ms: seq<Snapshot>, k: nat)
    requires k < |ms|
    ensures TrafficMatrix(ms)[k] == TrafficMatrix([ms[k]])[0]
    ensures LatencyMatrix(ms)[k] == LatencyMatrix([ms[k]])[0]
  {
  }

  /** `scaler.transform(x)`; calling it on `None` or on an unfitted scaler raises. */
  function TransformWith<S, F>(scaler: Slot<S>, x: Matrix, sk: Sklearn<S, F>): (r: Result<Matrix>)
    ensures !scaler.Fitted? ==> r.Failure?
    ensures scaler.Fitted? ==> r == sk.transform(scaler.fit, x)
  {
    match scaler
    case Unset => Failure("'NoneType' object has no attribute 'transform'")
    case Unfitted => Failure("This StandardScaler instance is not fitted yet")
    case Fitted(s) => sk.transform(s, x)
  }

  /** `model.predict(x)` */
  function PredictWith<S, F>(model: Slot<F>, x: Matrix, sk: Sklearn<S, F>): (r: Result<seq<int>>)
    ensures !model.Fitted? ==> r.Failure?
    ensures model.Fitted? ==> r == sk.predict(model.fit, x)
  {
    match model
    case Unset => Failure("'NoneType' object has no attribute 'predict'")
    case Unfitted => Failure("This IsolationForest instance is not fitted yet")
    case Fitted(f) => sk.predict(f, x)
  }

  /** `model.score_samples(x)` */
  function ScoreWith<S, F>(model: Slot<F>, x: Matrix, sk: Sklearn<S, F>): (r: Result<seq<real>>)
    ensures !model.Fitted? ==> r.Failure?
    ensures model.Fitted? ==> r == sk.scoreSamples(model.fit, x)
  {
    match model
    case Unset => Failure("'NoneType' object has no attribute 'score_samples'")
    case Unfitted => Failure("This IsolationForest instance is not fitted yet")
    case Fitted(f) => sk.scoreSamples(f, x)
  }

  /** `a[0]`, which raises on an empty array. */
  function First<T>(a: seq<T>): (r: Result<T>)
    ensures r.Success? <==> |a| > 0
    ensures |a| > 0 ==> r.value == a[0]
  {
    if |a| > 0 then Success(a[0]) else Failure("index 0 is out of bounds")
  }

  /**
   * The trained verdict: each detector flags iff its prediction is -1, the snapshot is anomalous iff
   * either flags, and the overall score is the lower (more anomalous) of the two scores.
   */
  function Combine(trafficPrediction: int, latencyPrediction: int, trafficScore: real, latencyScore: real): (r: AnomalyResult)
    ensures r.trafficAnomaly <==> trafficPrediction == -1
    ensures r.latencyAnomaly <==> latencyPrediction == -1
    ensures r.isAnomaly <==> r.trafficAnomaly || r.latencyAnomaly
    ensures r.anomalyScore <= trafficScore && r.anomalyScore <= latencyScore
    ensures r.anomalyScore == trafficScore || r.anomalyScore == latencyScore
    ensures r.trafficScore == Some(trafficScore) && r.latencyScore == Some(latencyScore) && r.error.None?
  {
    var trafficAnomaly := trafficPrediction == -1;
    var latencyAnomaly := latencyPrediction == -1;
    var overall := if trafficScore <= latencyScore then trafficScore else latencyScore;
    AnomalyResult(trafficAnomaly || latencyAnomaly, trafficAnomaly, latencyAnomaly, overall,
                  Some(trafficScore), Some(latencyScore), None)
  }

  /**
   * The `try` block of `detect_anomalies`: scale both feature rows, predict and score with both
   * forests, read the first element of each answer and combine; the first failing step ends it.
   */
  function Score<S, F>(trafficScaler: Slot<S>, latencyScaler: Slot<S>, trafficModel: Slot<F>, latencyModel: Slot<F>,
                       m: Snapshot, sk: Sklearn<S, F>): (r: Result<AnomalyResult>)
    ensures r.Success? ==> r.value.error.None? && r.value.trafficScore.Some? && r.value.latencyScore.Some?
    ensures r.Success? ==> (r.value.isAnomaly <==> r.value.trafficAnomaly || r.value.latencyAnomaly)
    ensures r.Success? ==> r.value.anomalyScore <= r.value.trafficScore.value && r.value.anomalyScore <= r.value.latencyScore.value
    ensures r.Success? ==> trafficScaler.Fitted? && latencyScaler.Fitted? && trafficModel.Fitted? && latencyModel.Fitted?
  {
    var trafficX :- TransformWith(trafficScaler, TrafficMatrix([m]), sk);
    var latencyX :- TransformWith(latencyScaler, LatencyMatrix([m]), sk);
    var trafficPredictions :- PredictWith(trafficModel, trafficX, sk);
    var latencyPredictions :- PredictWith(latencyModel, latencyX, sk);
    var trafficScores :- ScoreWith(trafficModel, trafficX, sk);
    var latencyScores :- ScoreWith(latencyModel, latencyX, sk);
    var trafficPrediction :- First(trafficPredictions);
    var latencyPrediction :- First(latencyPredictions);
    var trafficScore :- First(trafficScores);
    var latencyScore :- First(latencyScores);
    Success(Combine(trafficPrediction, latencyPrediction, trafficScore, latencyScore))
  }

  /**
   * With every estimator fitted and every library call answering, the verdict is the combination
   * of the first prediction and the first score of each forest on the scaled feature rows.
   */
  lemma ScoreWhenFitted<S, F>(ts: S, ls: S, tm: F, lm: F, m: Snapshot, sk: Sklearn<S, F>)
    requires sk.transform(ts, TrafficMatrix([m])).Success? && sk.transform(ls, LatencyMatrix([m])).Success?
    requires
      var tx := sk.transform(ts, TrafficMatrix([m])).value;
      var lx := sk.transform(ls, LatencyMatrix([m])).value;
      && sk.predict(tm, tx).Success? && |sk.predict(tm, tx).value| > 0
      && sk.predict(lm, lx).Success? && |sk.predict(lm, lx).value| > 0
      && sk.scoreSamples(tm, tx).Success? && |sk.scoreSamples(tm, tx).value| > 0
      && sk.scoreSamples(lm, lx).Success? && |sk.scoreSamples(lm, lx).value| > 0
    ensures
      var tx := sk.transform(ts, TrafficMatrix([m])).value;
      var lx := sk.transform(ls, LatencyMatrix([m])).value;
      var r := Score(Fitted(ts), Fitted(ls), Fitted(tm), Fitted(lm), m, sk);
      && r.Success?
      && (r.value.trafficAnomaly <==> sk.predict(tm, tx).value[0] == -1)
      && (r.value.latencyAnomaly <==> sk.predict(lm, lx).value[0] == -1)
      && r.value.trafficScore == Some(sk.scoreSamples(tm, tx).value[0])
      && r.value.latencyScore == Some(sk.scoreSamples(lm, lx).value[0])
  {
  }

  /** An estimator that is missing or unfitted makes scoring fail, whatever the library answers. */
  lemma ScoreNeedsFittedEstimators<S, F>(trafficScaler: Slot<S>, latencyScaler: Slot<S>, trafficModel: Slot<F>,
                                         latencyModel: Slot<F>, m: Snapshot, sk: Sklearn<S, F>)
    requires !trafficScaler.Fitted? || !latencyScaler.Fitted? || !trafficModel.Fitted? || !latencyModel.Fitted?
    ensures Score(trafficScaler, latencyScaler, trafficModel, latencyModel, m, sk).Failure?
  {
  }

  /** Every library call that `train` makes on `ms` succeeds (the `fit_transform` calls and the two `fit` calls). */
  ghost predicate TrainSucceeds<S, F>(ms: seq<Snapshot>, sk: Sklearn<S, F>) {
    && ScalersFit(ms, sk)
    && sk.fitForest(sk.transform(sk.fitScaler(TrafficMatrix(ms)).value, TrafficMatrix(ms)).value).Success?
    && sk.fitForest(sk.transform(sk.fitScaler(LatencyMatrix(ms)).value, LatencyMatrix(ms)).value).Success?
  }

  /** Both `fit_transform` calls of `train` succeed. */
  ghost predicate ScalersFit<S, F>(ms: seq<Snapshot>, sk: Sklearn<S, F>) {
    && sk.fitScaler(TrafficMatrix(ms)).Success?
    && sk.transform(sk.fitScaler(TrafficMatrix(ms)).value, TrafficMatrix(ms)).Success?
    && sk.fitScaler(LatencyMatrix(ms)).Success?
    && sk.transform(sk.fitScaler(LatencyMatrix(ms)).value, LatencyMatrix(ms)).Success?
  }

  /** All four `joblib.load` calls of `load_models` run and succeed. */
  predicate LoadSucceeds<S, F>(files: ModelFiles<S, F>) {
    && files.trafficModelExists && files.latencyModelExists
    && files.trafficModel.Success? && files.latencyModel.Success?
    && files.trafficScaler.Success? && files.latencyScaler.Success?
  }

  class AnomalyDetector<S, F> {
    var trafficModel: Slot<F>
    var latencyModel: Slot<F>
    var trafficScaler: Slot<S>
    var latencyScaler: Slot<S>
    var isTrained: bool

    /** `__init__`: every attribute `None`, untrained, then an attempt to load saved models. */
    constructor (files: ModelFiles<S, F>)
      ensures isTrained <==> LoadSucceeds(files)
      ensures LoadSucceeds(files) ==>
        && trafficModel == Fitted(files.trafficModel.value) && latencyModel == Fitted(files.latencyModel.value)
        && trafficScaler == Fitted(files.trafficScaler.value) && latencyScaler == Fitted(files.latencyScaler.value)
    {
      trafficModel := Unset;
      latencyModel := Unset;
      trafficScaler := Unset;
      latencyScaler := Unset;
      isTrained := false;
      new;
      var _ := LoadModels(files);
    }

    /**
     * `load_models`: only when both model files exist are the four files loaded, in order, each
     * result stored as soon as it is loaded; the first failing load stops it and answers false,
     * leaving the values stored so far. All four loaded: trained, answers true.
     */
    method LoadModels(files: ModelFiles<S, F>) returns (ok: bool)
      modifies this
      ensures ok <==> LoadSucceeds(files)
      ensures ok ==> isTrained
      ensures !ok ==> isTrained == old(isTrained)
      ensures !(files.trafficModelExists && files.latencyModelExists) ==>
        && trafficModel == old(trafficModel) && latencyModel == old(latencyModel)
        && trafficScaler == old(trafficScaler) && latencyScaler == old(latencyScaler)
      ensures files.trafficModelExists && files.latencyModelExists ==>
        && trafficModel == (if files.trafficModel.Success? then Fitted(files.trafficModel.value) else old(trafficModel))
        && latencyModel == (if files.trafficModel.Success? && files.latencyModel.Success?
                            then Fitted(files.latencyModel.value) else old(latencyModel))
        && trafficScaler == (if files.trafficModel.Success? && files.latencyModel.Success? && files.trafficScaler.Success?
                             then Fitted(files.trafficScaler.value) else old(trafficScaler))
        && latencyScaler == (if LoadSucceeds(files) then Fitted(files.latencyScaler.value) else old(latencyScaler))
    {
      if !(files.trafficModelExists && files.latencyModelExists) {
        return false;
      }
      if files.trafficModel.Failure? {
        return false;
      }
      trafficModel := Fitted(files.trafficModel.value);
      if files.latencyModel.Failure? {
        return false;
      }
      latencyModel := Fitted(files.latencyModel.value);
      if files.trafficScaler.Failure? {
        return false;
      }
      trafficScaler := Fitted(files.trafficScaler.value);
      if files.latencyScaler.Failure? {
        return false;
      }
      latencyScaler := Fitted(files.latencyScaler.value);
      isTrained := true;
      return true;
    }

    /**
     * `train`: nothing happens for an empty list. Otherwise new scalers are stored and fitted, then
     * new forests are stored and fitted, each step in place; the first failing library call ends
     * it with that error (re-raised) and leaves what was stored so far. When all succeed the four
     * estimators hold the fits on the feature matrices and the detector is trained. Persisting the
     * models afterwards swallows its own errors.
     */
    method Train(ms: seq<Snapshot>, sk: Sklearn<S, F>) returns (err: Option<string>)
      modifies this
      ensures |ms| == 0 ==>
        && err.None? && isTrained == old(isTrained)
        && trafficModel == old(trafficModel) && latencyModel == old(latencyModel)
        && trafficScaler == old(trafficScaler) && latencyScaler == old(latencyScaler)
      ensures |ms| > 0 ==> (err.None? <==> TrainSucceeds(ms, sk))
      ensures err.Some? ==> isTrained == old(isTrained)
      ensures err.Some? ==> !trafficScaler.Unset? && !latencyScaler.Unset?
      ensures err.Some? && !ScalersFit(ms, sk) ==> trafficModel == old(trafficModel) && latencyModel == old(latencyModel)
      ensures |ms| > 0 && err.None? ==>
        && isTrained
        && trafficScaler == Fitted(sk.fitScaler(TrafficMatrix(ms)).value)
        && latencyScaler == Fitted(sk.fitScaler(LatencyMatrix(ms)).value)
        && trafficModel == Fitted(sk.fitForest(sk.transform(trafficScaler.fit, TrafficMatrix(ms)).value).value)
        && latencyModel == Fitted(sk.fitForest(sk.transform(latencyScaler.fit, LatencyMatrix(ms)).value).value)
    {
      if |ms| == 0 {
        return None;
      }
      var trafficData := TrafficMatrix(ms);
      var latencyData := LatencyMatrix(ms);
      trafficScaler := Unfitted;
      latencyScaler := Unfitted;
      var ts := sk.fitScaler(trafficData);
      if ts.Failure? {
        return Some(ts.error);
      }
      trafficScaler := Fitted(ts.value);
      var trafficScaled := sk.transform(ts.value, trafficData);
      if trafficScaled.Failure? {
        return Some(trafficScaled.error);
      }
      var ls := sk.fitScaler(latencyData);
      if ls.Failure? {
        return Some(ls.error);
      }
      latencyScaler := Fitted(ls.value);
      var latencyScaled := sk.transform(ls.value, latencyData);
      if latencyScaled.Failure? {
        return Some(latencyScaled.error);
      }
      trafficModel := Unfitted;
      latencyModel := Unfitted;
      var tm := sk.fitForest(trafficScaled.value);
      if tm.Failure? {
        return Some(tm.error);
      }
      trafficModel := Fitted(tm.value);
      var lm := sk.fitForest(latencyScaled.value);
      if lm.Failure? {
        return Some(lm.error);
      }
      latencyModel := Fitted(lm.value);
      isTrained := true;
      return None;
    }

    /**
     * `detect_anomalies`: neutral without an error when untrained; otherwise the scored verdict,
     * or neutral with the error message when any step of scoring fails. It never fails itself.
     */
    function DetectAnomalies(m: Snapshot, sk: Sklearn<S, F>): (r: AnomalyResult)
      reads this
      ensures !isTrained ==> r == Neutral(None)
      ensures isTrained ==>
        var scored := Score(trafficScaler, latencyScaler, trafficModel, latencyModel, m, sk);
        && (scored.Success? ==> r == scored.value)
        && (scored.Failure? ==> r == Neutral(Some(scored.error)))
      ensures r.isAnomaly <==> r.trafficAnomaly || r.latencyAnomaly
      ensures r.error.Some? || !isTrained ==> !r.isAnomaly && r.anomalyScore == 0.0
      ensures r.trafficScore.Some? && r.latencyScore.Some? ==>
        r.anomalyScore <= r.trafficScore.value && r.anomalyScore <= r.latencyScore.value
    {
      if !isTrained then Neutral(None)
      else
        match Score(trafficScaler, latencyScaler, trafficModel, latencyModel, m, sk)
        case Success(v) => v
        case Failure(e) => Neutral(Some(e))
    }
  }

  /** The training window of `train_anomaly_models`: seven days, in seconds. */
  const TrainingWindow: real := 604800.0

  /**
   * `train_anomaly_models`: fetches the history of the last seven days and trains on it; false
   * when there is no history or training raises, true once training succeeded.
   */
  method TrainAnomalyModels<S, F>(detector: AnomalyDetector<S, F>, db: TrafficAnalyzer.Database, now: real,
                                  parse: string -> Option<ProtocolsValue>, failing: set<nat>, queryOk: bool,
                                  sk: Sklearn<S, F>) returns (ok: bool)
    modifies detector
    ensures var history := if queryOk then db.Converted(db.RowsOfWindow(now - TrainingWindow, now), parse, failing) else [];
      && (ok <==> |history| > 0 && TrainSucceeds(history, sk))
      && (|history| == 0 ==> detector.isTrained == old(detector.isTrained))
    ensures ok ==> detector.isTrained
  {
    var history := db.GetHistoricalMetrics(now - TrainingWindow, now, parse, failing, queryOk);
    if |history| == 0 {
      return false;
    }
    var err := detector.Train(history, sk);
    return err.None?;
  }
}
