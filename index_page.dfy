/**
  The game-round controller of the animal-sounds page: the state the page
  keeps between renders and the handlers that change it. Rendering, sound,
  toasts and timers are not modelled; clock readings and random choices
  are parameters.
 */
module IndexPage {
  import opened Wrappers
  import opened GameConfig
  import opened Services

  datatype Animal = Animal(name: string, image: string, sound: string)

  const Animals: seq<Animal> := [
    Animal("dog", "dog.png", "Woof! Woof!"),
    Animal("cat", "cat.png", "Meow! Meow!"),
    Animal("cow", "cow.png", "Moo! Moo!"),
    Animal("lion", "lion.png", "Roar! Roar!")
  ]

  /** An answer is correct when it names the animal whose sound was played. */
  function IsCorrect(animalName: string, current: Option<Animal>): (r: bool)
    ensures current.None? ==> !r
    ensures current.Some? ==> (r <==> animalName == current.value.name)
  {
    current.Some? && animalName == current.value.name
  }

  /**
    The rule that turns the prediction button on after a recorded click:
    the UI must be enabled, and either the service allows prediction or
    the minimum number of attempts is reached.
   */
  function ShouldEnablePrediction(uiEnabled: bool, result: RecordAttemptResult, minAttempts: nat): (r: bool)
    ensures r <==> uiEnabled && (result.canPredict || result.attemptCount >= minAttempts)
    ensures !uiEnabled ==> !r
  {
    (result.canPredict && uiEnabled) || (result.attemptCount >= minAttempts && uiEnabled)
  }

  const LowRiskBadge: string := "bg-green-500 hover:bg-green-600"
  const ModerateRiskBadge: string := "bg-yellow-500 hover:bg-yellow-600"
  const HighRiskBadge: string := "bg-red-500 hover:bg-red-600"
  const UnknownRiskBadge: string := "bg-gray-500"

  /** The badge colour of a risk tier: green, yellow, red, and gray for anything else. */
  function RiskBadgeColor(riskLevel: string): (r: string)
    ensures r == LowRiskBadge <==> riskLevel == "LOW"
    ensures r == ModerateRiskBadge <==> riskLevel == "MODERATE"
    ensures r == HighRiskBadge <==> riskLevel == "HIGH"
    ensures r == UnknownRiskBadge <==> riskLevel !in {"LOW", "MODERATE", "HIGH"}
  {
    match riskLevel
    case "LOW" => LowRiskBadge
    case "MODERATE" => ModerateRiskBadge
    case "HIGH" => HighRiskBadge
    case _ => UnknownRiskBadge
  }

  /** The page's state and the session service it records to. */
  class AnimalSoundsGame {
    const service: GameService
    var currentAnimal: Option<Animal>
    var selectedAnimal: Option<string>
    var score: nat
    var showConfetti: bool
    var gameStarted: bool
    var canPredict: bool
    var showPrediction: bool
    var predictionResult: Option<PredictionResult>
    var isLoadingPrediction: bool
    var soundPlayTime: Option<int>
    var sessionStartTime: int

    /**
      The score never exceeds the attempts recorded in the session, and the
      prediction button is only ever on when the prediction UI is enabled.
     */
    ghost predicate Valid()
      reads this, service, service.config
    {
      score <= service.attemptCount && (canPredict ==> service.config.enablePredictionUI)
    }

    /** The first render: the initial state, with no animal chosen yet. */
    constructor (service: GameService, now: int)
      ensures this.service == service && Valid()
      ensures currentAnimal == None && selectedAnimal == None
      ensures score == 0 && !showConfetti && !gameStarted
      ensures !canPredict && !showPrediction && predictionResult == None && !isLoadingPrediction
      ensures soundPlayTime == None && sessionStartTime == now
    {
      this.service := service;
      currentAnimal := None;
      selectedAnimal := None;
      score := 0;
      showConfetti := false;
      gameStarted := false;
      canPredict := false;
      showPrediction := false;
      predictionResult := None;
      isLoadingPrediction := false;
      soundPlayTime := None;
      sessionStartTime := now;
    }

    /**
      Picks the animal whose sound is played next and clears the answer;
      the page runs this once when it is mounted and after every reset.
     */
    method SelectRandomAnimal(randomIndex: nat)
      requires Valid()
      requires randomIndex < |Animals|
      modifies this
      ensures Valid()
      ensures currentAnimal == Some(Animals[randomIndex]) && selectedAnimal == None
      ensures score == old(score) && gameStarted == old(gameStarted) && canPredict == old(canPredict)
      ensures soundPlayTime == old(soundPlayTime) && sessionStartTime == old(sessionStartTime)
      ensures predictionResult == old(predictionResult) && showPrediction == old(showPrediction)
      ensures showConfetti == old(showConfetti) && isLoadingPrediction == old(isLoadingPrediction)
    {
      currentAnimal := Some(Animals[randomIndex]);
      selectedAnimal := None;
    }

    /**
      A click is ignored while an answer is shown, before the game starts,
      or before a sound is played (a sound time of 0 reads as unset).
     */
    predicate ClickIgnored(): (r: bool)
      reads this
      ensures !gameStarted ==> r
      ensures soundPlayTime.None? ==> r
      ensures !r <==> gameStarted && soundPlayTime.Some? && soundPlayTime.value != 0
                      && (selectedAnimal.None? || selectedAnimal.value == "")
    {
      (selectedAnimal.Some? && selectedAnimal.value != "")
      || !gameStarted
      || soundPlayTime.None? || soundPlayTime.value == 0
    }

    /** Playing the sound stamps the time and starts the game on first play. */
    method PlaySound(now: int)
      requires Valid()
      modifies this
      ensures Valid()
      ensures currentAnimal.None? ==> unchanged(this)
      ensures currentAnimal.Some? ==> soundPlayTime == Some(now) && gameStarted
      ensures currentAnimal.Some? ==> sessionStartTime == (if old(gameStarted) then old(sessionStartTime) else now)
      ensures currentAnimal == old(currentAnimal) && selectedAnimal == old(selectedAnimal)
      ensures score == old(score) && canPredict == old(canPredict)
      ensures predictionResult == old(predictionResult) && showPrediction == old(showPrediction)
      ensures showConfetti == old(showConfetti) && isLoadingPrediction == old(isLoadingPrediction)
    {
      if currentAnimal.Some? {
        soundPlayTime := Some(now);
        if !gameStarted {
          gameStarted := true;
          sessionStartTime := now;
        }
      }
    }

    /**
      The player taps an animal at time `now`. The outcomes of the two
      backend calls are supplied; the service uses those of the active ones.
     */
    method HandleAnimalClick(animalName: string, now: int, appReply: Reply<RecordBody>, predictionReply: Reply<RecordBody>)
      returns (recorded: Option<RecordAttemptResult>, sent: seq<Request>)
      requires Valid()
      modifies this, service
      ensures Valid()
      ensures old(ClickIgnored()) ==> recorded == None && sent == [] && unchanged(this) && unchanged(service)
      ensures !old(ClickIgnored()) ==>
        && selectedAnimal == Some(animalName)
        && score == old(score) + (if IsCorrect(animalName, old(currentAnimal)) then 1 else 0)
        && showConfetti == (old(showConfetti) || IsCorrect(animalName, old(currentAnimal)))
        && (recorded.Some? <==> currentAnimal.Some?)
        && service.sessionId == old(service.sessionId)
        && service.attemptCount == old(service.attemptCount) + (if recorded.Some? then 1 else 0)
        && canPredict == (old(canPredict)
                          || (recorded.Some? && ShouldEnablePrediction(service.config.enablePredictionUI, recorded.value,
                                                                       service.config.minAttemptsForPrediction)))
      ensures !old(ClickIgnored()) && recorded.Some? ==>
        && recorded == Some(RecordOutcome(service.config, service.attemptCount, appReply, predictionReply))
        && recorded.value.attemptCount == service.attemptCount
        && sent == OutgoingRequests(service.config, InteractionPayload(service.sessionId, service.attemptCount,
             AttemptData(currentAnimal.value.name, animalName, IsCorrect(animalName, currentAnimal),
                         now - old(soundPlayTime).value, old(service.attemptCount) + 1, score,
                         (now - sessionStartTime) as real / 1000.0)))
      ensures recorded.None? ==> sent == []
      ensures currentAnimal == old(currentAnimal) && gameStarted == old(gameStarted)
      ensures soundPlayTime == old(soundPlayTime) && sessionStartTime == old(sessionStartTime)
      ensures predictionResult == old(predictionResult) && showPrediction == old(showPrediction)
      ensures isLoadingPrediction == old(isLoadingPrediction)
    {
      if ClickIgnored() {
        return None, [];
      }
      var responseTime := now - soundPlayTime.value;
      var isCorrect := IsCorrect(animalName, currentAnimal);
      selectedAnimal := Some(animalName);
      recorded, sent := None, [];
      if currentAnimal.Some? {
        var gameDuration := (now - sessionStartTime) as real / 1000.0;
        var attemptNumber := service.attemptCount + 1;
        var result;
        result, sent := service.RecordAttempt(
          AttemptData(currentAnimal.value.name, animalName, isCorrect, responseTime, attemptNumber,
                      if isCorrect then score + 1 else score, gameDuration),
          appReply, predictionReply);
        var shouldEnable := ShouldEnablePrediction(service.config.ShouldShowPredictionUI(), result,
                                                   service.config.minAttemptsForPrediction);
        if shouldEnable {
          canPredict := true;
        }
        recorded := Some(result);
      }
      if isCorrect {
        score := score + 1;
        showConfetti := true;
      }
    }

    /** Starts a new game and a new session. */
    method ResetGame(now: int, timestamp: nat, randomText: string, randomIndex: nat)
      requires Valid()
      requires randomIndex < |Animals|
      modifies this, service
      ensures Valid()
      ensures score == 0 && !gameStarted && !canPredict
      ensures predictionResult == None && !showPrediction
      ensures sessionStartTime == now && soundPlayTime == None
      ensures service.sessionId == GenerateSessionId(timestamp, randomText) && service.attemptCount == 0
      ensures currentAnimal == Some(Animals[randomIndex]) && selectedAnimal == None
      ensures showConfetti == old(showConfetti) && isLoadingPrediction == old(isLoadingPrediction)
    {
      score := 0;
      gameStarted := false;
      canPredict := false;
      predictionResult := None;
      showPrediction := false;
      sessionStartTime := now;
      soundPlayTime := None;
      service.Reset(timestamp, randomText);
      SelectRandomAnimal(randomIndex);
    }

    /** The step deferred after a correct answer: next animal, confetti off, sound time cleared. */
    method AfterCorrectAnswer(randomIndex: nat)
      requires Valid()
      requires randomIndex < |Animals|
      modifies this
      ensures Valid()
      ensures !showConfetti && soundPlayTime == None
      ensures currentAnimal == Some(Animals[randomIndex]) && selectedAnimal == None
      ensures score == old(score) && gameStarted == old(gameStarted) && canPredict == old(canPredict)
      ensures sessionStartTime == old(sessionStartTime)
      ensures predictionResult == old(predictionResult) && showPrediction == old(showPrediction)
      ensures isLoadingPrediction == old(isLoadingPrediction)
    {
      showConfetti := false;
      SelectRandomAnimal(randomIndex);
      soundPlayTime := None;
    }

    /** The step deferred after a wrong answer: the answer is cleared so the player can try again. */
    method AfterWrongAnswer()
      requires Valid()
      modifies this
      ensures Valid()
      ensures selectedAnimal == None
      ensures currentAnimal == old(currentAnimal) && soundPlayTime == old(soundPlayTime)
      ensures score == old(score) && gameStarted == old(gameStarted) && canPredict == old(canPredict)
      ensures sessionStartTime == old(sessionStartTime) && showConfetti == old(showConfetti)
      ensures predictionResult == old(predictionResult) && showPrediction == old(showPrediction)
      ensures isLoadingPrediction == old(isLoadingPrediction)
    {
      selectedAnimal := None;
    }

    /**
      The player asks for an assessment. Without the button enabled nothing
      is asked of the service; otherwise a relayed prediction is shown.
     */
    method HandleGetPrediction(reply: Reply<PredictionResult>) returns (sent: seq<Request>)
      requires Valid()
      modifies this
      ensures Valid()
      ensures !old(canPredict) ==> sent == [] && unchanged(this)
      ensures old(canPredict) ==>
        && sent == (if service.AnalysisAllowed()
                    then [Post(service.config.predictionApiUrl + "/analyze", AnalyzeSession(service.sessionId))]
                    else [])
        && !isLoadingPrediction
        && (if service.AnalysisAllowed() && reply.Ok? && reply.body.success
            then predictionResult == Some(reply.body) && showPrediction
            else predictionResult == old(predictionResult) && showPrediction == old(showPrediction))
      ensures currentAnimal == old(currentAnimal) && selectedAnimal == old(selectedAnimal)
      ensures score == old(score) && gameStarted == old(gameStarted) && canPredict == old(canPredict)
      ensures soundPlayTime == old(soundPlayTime) && sessionStartTime == old(sessionStartTime)
      ensures showConfetti == old(showConfetti)
    {
      if !canPredict {
        return [];
      }
      isLoadingPrediction := true;
      var prediction;
      prediction, sent := service.GetPrediction(reply);
      if prediction.Some? {
        predictionResult := prediction;
        showPrediction := true;
      }
      isLoadingPrediction := false;
    }
  }
}
