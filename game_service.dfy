/**
  The attempt recorder and prediction client of the animal-sounds game.
  Every network call is replaced by an outcome the caller supplies: the
  call either fails (the request is rejected or its body is not JSON) or
  it answers with a body. The requests the service would send are
  returned, in the order it issues them.
 */
module Services {
  import opened Wrappers
  import opened GameConfig
  import Decimal

  /** What the page reports about one answer. */
  datatype AttemptData = AttemptData(
    animalShown: string,
    animalSelected: string,
    isCorrect: bool,
    responseTimeMs: int,
    attemptNumber: int,
    totalScore: int,
    gameDurationSec: real)

  /** Aggregates computed by the prediction service; `canPredict` may be absent. */
  datatype PredictionStats = PredictionStats(
    totalAttempts: int,
    avgResponseTime: real,
    medianResponseTime: real,
    slowResponses: int,
    accuracyRate: real,
    canPredict: Option<bool>)

  datatype Probability = Probability(disability: real, normal: real)

  datatype Features = Features(
    avgResponseTime: real,
    medianResponseTime: real,
    slowResponses: int,
    accuracyRate: real,
    totalAttempts: int)

  datatype Recommendation = Recommendation(
    level: string,
    title: string,
    message: string,
    suggestion: string,
    keyIndicators: seq<string>,
    nextSteps: seq<string>)

  /** The body of an analysis answer, relayed to the page as it is. */
  datatype PredictionResult = PredictionResult(
    success: bool,
    sessionId: string,
    totalAttempts: int,
    hasHearingDisability: bool,
    probability: Probability,
    riskLevel: string,
    confidence: string,
    features: Features,
    recommendation: Recommendation)

  datatype RecordAttemptResult = RecordAttemptResult(
    success: bool,
    attemptCount: nat,
    stats: Option<PredictionStats>,
    canPredict: bool,
    mode: string)

  /** The outcome of one network call. */
  datatype Reply<T> = Fail | Ok(body: T)

  /** The body of an answer to a recorded attempt: it may or may not carry stats. */
  datatype RecordBody = RecordBody(stats: Option<PredictionStats>)

  /** The JSON body posted for one attempt, to either backend. */
  datatype InteractionBody = InteractionBody(
    sessionId: string,
    animalShown: string,
    animalSelected: string,
    isCorrect: bool,
    responseTimeMs: int,
    attemptNumber: nat,
    totalScore: int,
    gameDurationSec: real)

  datatype RequestBody = Interaction(payload: InteractionBody) | AnalyzeSession(sessionId: string)

  datatype Request = Post(url: string, body: RequestBody)

  /** JavaScript's `String.prototype.substring` for non-negative bounds: clamp, then order. */
  function Substring(s: string, start: nat, end: nat): (r: string)
    ensures |r| <= |s|
    ensures start <= end <= |s| ==> r == s[start..end]
    ensures |s| <= start <= end ==> r == []
    ensures start <= |s| <= end ==> r == s[start..]
    ensures start <= end ==> |r| <= end - start
    ensures end < start ==> r == Substring(s, end, start)
  {
    var a := if start < |s| then start else |s|;
    var b := if end < |s| then end else |s|;
    if a <= b then s[a..b] else s[b..a]
  }

  const SessionPrefix: string := "session_"

  datatype SessionIdParts = SessionIdParts(timestamp: nat, random: string)

  /** Splits a session id into its timestamp and its random part. */
  function ParseSessionId(id: string): Option<SessionIdParts> {
    if |id| < |SessionPrefix| || id[..|SessionPrefix|] != SessionPrefix then None
    else
      var rest := id[|SessionPrefix|..];
      var k := Decimal.DigitRun(rest);
      if k == 0 || k == |rest| || rest[k] != '_' then None
      else Some(SessionIdParts(Decimal.ToNat(rest[..k]), rest[k + 1..]))
  }

  /** `session_`, the decimal timestamp, `_` and any text split back into the timestamp and that text. */
  lemma SessionIdRoundTrip(timestamp: nat, random: string)
    ensures ParseSessionId(SessionPrefix + Decimal.FromNat(timestamp) + "_" + random)
            == Some(SessionIdParts(timestamp, random))
  {
    var digits := Decimal.FromNat(timestamp);
    var id := SessionPrefix + digits + "_" + random;
    assert id == SessionPrefix + (digits + "_" + random);
    assert id[..|SessionPrefix|] == SessionPrefix;
    var rest := id[|SessionPrefix|..];
    assert rest == digits + ("_" + random);
    var k := Decimal.DigitRun(rest);
    Decimal.DigitRunStopsAfterDigits(digits, "_" + random);
    assert k == |digits|;
    assert rest[..k] == digits;
    assert rest[k + 1..] == random;
    Decimal.ToNatFromNat(timestamp);
  }

  /**
    `session_<timestamp>_<random>`: the timestamp in decimal and characters
    2 to 15 of `randomText`, the base-36 text of a random fraction. The id
    reads back as the timestamp it was made from and at most 13 random
    characters.
   */
  function GenerateSessionId(timestamp: nat, randomText: string): (id: string)
    ensures |id| > |SessionPrefix| && id[..|SessionPrefix|] == SessionPrefix
    ensures ParseSessionId(id) == Some(SessionIdParts(timestamp, Substring(randomText, 2, 15)))
    ensures |Substring(randomText, 2, 15)| <= 13
  {
    var random := Substring(randomText, 2, 15);
    SessionIdRoundTrip(timestamp, random);
    SessionPrefix + Decimal.FromNat(timestamp) + "_" + random
  }

  /** The body of the request that records one attempt; its attempt number is `attemptCount`. */
  function InteractionPayload(sessionId: string, attemptCount: nat, data: AttemptData): (r: InteractionBody)
    ensures r.sessionId == sessionId && r.attemptNumber == attemptCount
    ensures r.animalShown == data.animalShown && r.animalSelected == data.animalSelected
    ensures r.isCorrect == data.isCorrect && r.responseTimeMs == data.responseTimeMs
    ensures r.totalScore == data.totalScore && r.gameDurationSec == data.gameDurationSec
  {
    InteractionBody(sessionId, data.animalShown, data.animalSelected, data.isCorrect,
                    data.responseTimeMs, attemptCount, data.totalScore, data.gameDurationSec)
  }

  /** The attempt number the page passes in never reaches a backend. */
  lemma PayloadIgnoresCallerAttemptNumber(sessionId: string, attemptCount: nat, data: AttemptData, n: int)
    ensures InteractionPayload(sessionId, attemptCount, data)
            == InteractionPayload(sessionId, attemptCount, data.(attemptNumber := n))
    ensures InteractionPayload(sessionId, attemptCount, data).attemptNumber == attemptCount
  {
  }

  /** The requests one recorded attempt issues: one per active backend, the app first. */
  function OutgoingRequests(config: Config, payload: InteractionBody): (r: seq<Request>)
    ensures |r| == (if config.ShouldCallAppAPI() then 1 else 0) + (if config.ShouldCallPredictionAPI() then 1 else 0)
    ensures forall i :: 0 <= i < |r| ==> r[i].body == Interaction(payload)
    ensures config.ShouldCallAppAPI() ==> r[0].url == config.appApiUrl + "/log-interaction"
    ensures config.ShouldCallPredictionAPI() ==> r[|r| - 1].url == config.predictionApiUrl + "/record"
  {
    (if config.ShouldCallAppAPI() then [Post(config.appApiUrl + "/log-interaction", Interaction(payload))] else [])
    + (if config.ShouldCallPredictionAPI() then [Post(config.predictionApiUrl + "/record", Interaction(payload))] else [])
  }

  /** Every backend that is called answers. */
  predicate AllRepliesOk(config: Config, appReply: Reply<RecordBody>, predictionReply: Reply<RecordBody>) {
    (config.ShouldCallAppAPI() ==> appReply.Ok?) && (config.ShouldCallPredictionAPI() ==> predictionReply.Ok?)
  }

  /** The stats an answer carries, if it is an answer at all. */
  function StatsOf(reply: Reply<RecordBody>): Option<PredictionStats> {
    if reply.Ok? then reply.body.stats else None
  }

  /** `stats?.can_predict || false`. */
  predicate AllowsPrediction(stats: Option<PredictionStats>): (r: bool)
    ensures stats.None? ==> !r
    ensures stats.Some? ==> (r <==> stats.value.canPredict == Some(true))
  {
    stats.Some? && stats.value.canPredict == Some(true)
  }

  /**
    The result of recording attempt number `attemptCount`: a success only
    when every active backend answers, with the prediction service's stats,
    and a bare failure otherwise.
   */
  function RecordOutcome(config: Config, attemptCount: nat, appReply: Reply<RecordBody>, predictionReply: Reply<RecordBody>)
    : (r: RecordAttemptResult)
    ensures r.attemptCount == attemptCount && r.mode == config.mode
    ensures r.success <==> AllRepliesOk(config, appReply, predictionReply)
    ensures r.stats == (if r.success && config.ShouldCallPredictionAPI() then StatsOf(predictionReply) else None)
    ensures r.canPredict <==> r.success && AllowsPrediction(r.stats)
    ensures !r.success ==> r.stats == None && !r.canPredict
  {
    if AllRepliesOk(config, appReply, predictionReply) then
      var stats := if config.ShouldCallPredictionAPI() then StatsOf(predictionReply) else None;
      RecordAttemptResult(true, attemptCount, stats, AllowsPrediction(stats), config.mode)
    else
      RecordAttemptResult(false, attemptCount, None, false, config.mode)
  }

  /** The session object: an id and the number of attempts recorded under it. */
  class GameService {
    const config: Config
    var sessionId: string
    var attemptCount: nat

    /** A fresh session; `timestamp` and `randomText` stand for the clock and the random source. */
    constructor (config: Config, timestamp: nat, randomText: string)
      ensures this.config == config
      ensures sessionId == GenerateSessionId(timestamp, randomText)
      ensures attemptCount == 0
    {
      this.config := config;
      sessionId := GenerateSessionId(timestamp, randomText);
      attemptCount := 0;
    }

    /**
      Records one attempt. The counter goes up whatever the backends do; a
      failed call turns the whole result into a failure, never an error.
     */
    method RecordAttempt(data: AttemptData, appReply: Reply<RecordBody>, predictionReply: Reply<RecordBody>)
      returns (result: RecordAttemptResult, sent: seq<Request>)
      modifies this
      ensures sessionId == old(sessionId) && attemptCount == old(attemptCount) + 1
      ensures sent == OutgoingRequests(config, InteractionPayload(sessionId, attemptCount, data))
      ensures result == RecordOutcome(config, attemptCount, appReply, predictionReply)
    {
      attemptCount := attemptCount + 1;
      var payload := InteractionPayload(sessionId, attemptCount, data);
      var app := config.ShouldCallAppAPI();
      var prediction := config.ShouldCallPredictionAPI();

      // The pending calls, each paired with the outcome it will have.
      sent := [];
      var responses: seq<Reply<RecordBody>> := [];
      if app {
        sent := sent + [Post(config.appApiUrl + "/log-interaction", Interaction(payload))];
        responses := responses + [appReply];
      }
      if prediction {
        sent := sent + [Post(config.predictionApiUrl + "/record", Interaction(payload))];
        responses := responses + [predictionReply];
      }

      var stats: Option<PredictionStats> := None;
      var i := 0;
      while i < |responses|
        invariant 0 <= i <= |responses|
        invariant |responses| == (if app then 1 else 0) + (if prediction then 1 else 0)
        invariant app ==> responses[0] == appReply
        invariant prediction ==> responses[|responses| - 1] == predictionReply
        invariant forall j :: 0 <= j < i ==> responses[j].Ok?
        invariant stats == (if prediction && i == |responses| then StatsOf(predictionReply) else None)
      {
        match responses[i]
        case Fail =>
          assert !AllRepliesOk(config, appReply, predictionReply) by {
            if app && i == 0 {
              assert responses[i] == appReply;
            } else {
              assert responses[i] == predictionReply;
            }
          }
          result := RecordAttemptResult(false, attemptCount, None, false, config.mode);
          return;
        case Ok(body) =>
          if app && prediction {
            // The first answer is the app's acknowledgement; the second has the stats.
            if i != 0 {
              stats := body.stats;
            }
          } else if prediction {
            stats := body.stats;
          }
        i := i + 1;
      }
      result := RecordAttemptResult(true, attemptCount, stats, AllowsPrediction(stats), config.mode);
    }

    /** Prediction is active and the session has the minimum number of attempts. */
    predicate AnalysisAllowed(): (r: bool)
      reads this
      ensures r <==> ParseMode(config.mode) in {Some(Prediction), Some(Both)}
                     && attemptCount >= config.minAttemptsForPrediction
    {
      config.ShouldCallPredictionAPI() && attemptCount >= config.minAttemptsForPrediction
    }

    /**
      Asks the prediction service for an analysis of this session. Nothing
      is sent unless prediction is active and enough attempts are recorded;
      the answer is relayed unchanged only when it reports success.
     */
    method GetPrediction(reply: Reply<PredictionResult>)
      returns (prediction: Option<PredictionResult>, sent: seq<Request>)
      ensures !AnalysisAllowed() ==> sent == [] && prediction == None
      ensures AnalysisAllowed() ==> sent == [Post(config.predictionApiUrl + "/analyze", AnalyzeSession(sessionId))]
      ensures prediction.Some? <==> AnalysisAllowed() && reply.Ok? && reply.body.success
      ensures prediction.Some? ==> prediction == Some(reply.body)
    {
      if !config.ShouldCallPredictionAPI() {
        return None, [];
      }
      if attemptCount < config.minAttemptsForPrediction {
        return None, [];
      }
      sent := [Post(config.predictionApiUrl + "/analyze", AnalyzeSession(sessionId))];
      match reply
      case Fail =>
        prediction := None;
      case Ok(body) =>
        prediction := if body.success then Some(body) else None;
    }

    /** Starts a new session: a fresh id and no attempts. */
    method Reset(timestamp: nat, randomText: string)
      modifies this
      ensures sessionId == GenerateSessionId(timestamp, randomText)
      ensures attemptCount == 0
    {
      sessionId := GenerateSessionId(timestamp, randomText);
      attemptCount := 0;
    }

    method GetSessionId() returns (id: string)
      ensures id == sessionId
    {
      id := sessionId;
    }

    method GetAttemptCount() returns (n: nat)
      ensures n == attemptCount
    {
      n := attemptCount;
    }

    method GetCurrentMode() returns (mode: string)
      ensures mode == config.mode
    {
      mode := config.mode;
    }
  }
}
