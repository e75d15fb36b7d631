/**
  The mode resolver of the animal-sounds game: a single configuration
  object whose mode selects which of the two backends (the data-collection
  app and the prediction service) receive recorded attempts, and whether
  the prediction button is shown.
 */
module GameConfig {
  import opened Wrappers

  /** The three modes the configuration names. */
  datatype GameMode = DataCollection | Prediction | Both

  /** The literal each mode is written as in the configuration. */
  function ModeName(m: GameMode): string {
    match m
    case DataCollection => "DATA_COLLECTION"
    case Prediction => "PREDICTION"
    case Both => "BOTH"
  }

  /**
    Which mode a configured literal denotes. The mode type is erased at run
    time, so the configured value is a string that may name no mode at all.
   */
  function ParseMode(s: string): (r: Option<GameMode>)
    ensures r.Some? ==> ModeName(r.value) == s
    ensures r.None? ==> forall m: GameMode :: ModeName(m) != s
  {
    if s == "DATA_COLLECTION" then Some(DataCollection)
    else if s == "PREDICTION" then Some(Prediction)
    else if s == "BOTH" then Some(Both)
    else None
  }

  /** The mode literal the configuration ships with. */
  const ShippedMode: string := "BOTH"
  const ShippedAppApiUrl: string := "http://localhost:5000/api"
  const ShippedPredictionApiUrl: string := "http://localhost:5001/api/predict"
  const ShippedMinAttemptsForPrediction: nat := 5

  const DataCollectionDescription: string := "\U{1F4CA} Data Collection Mode - Recording to CSV/JSON"
  const PredictionDescription: string := "\U{1F52E} Prediction Mode - Real-time ML predictions"
  const BothDescription: string := "\U{1F680} Full Mode - Storage + Predictions"
  const UnknownDescription: string := "Unknown mode"

  /**
    The configuration object. Only `enablePredictionUI` is ever changed,
    once, when the configuration is loaded.
   */
  class Config {
    const mode: string
    const appApiUrl: string
    const predictionApiUrl: string
    const minAttemptsForPrediction: nat
    var enablePredictionUI: bool

    /** The configuration literal, before the load-time adjustment. */
    constructor (mode: string, appApiUrl: string, predictionApiUrl: string, minAttemptsForPrediction: nat)
      ensures this.mode == mode && this.appApiUrl == appApiUrl
      ensures this.predictionApiUrl == predictionApiUrl
      ensures this.minAttemptsForPrediction == minAttemptsForPrediction
      ensures !enablePredictionUI
    {
      this.mode := mode;
      this.appApiUrl := appApiUrl;
      this.predictionApiUrl := predictionApiUrl;
      this.minAttemptsForPrediction := minAttemptsForPrediction;
      enablePredictionUI := false;
    }

    /** The load-time step that switches the prediction UI on for the modes that predict. */
    method AutoConfigureUI()
      modifies this
      ensures enablePredictionUI == (old(enablePredictionUI) || ParseMode(mode) in {Some(Prediction), Some(Both)})
    {
      if mode == "PREDICTION" || mode == "BOTH" {
        enablePredictionUI := true;
      }
    }

    /** Loading the configuration module: the literal, then the load-time step. */
    static method Load(mode: string) returns (c: Config)
      ensures fresh(c) && c.mode == mode
      ensures c.appApiUrl == ShippedAppApiUrl && c.predictionApiUrl == ShippedPredictionApiUrl
      ensures c.minAttemptsForPrediction == ShippedMinAttemptsForPrediction
      ensures c.ShouldShowPredictionUI() == c.ShouldCallPredictionAPI()
    {
      c := new Config(mode, ShippedAppApiUrl, ShippedPredictionApiUrl, ShippedMinAttemptsForPrediction);
      c.AutoConfigureUI();
    }

    /** The configuration as shipped: `BOTH` mode, so both backends and the prediction UI are on. */
    static method LoadShipped() returns (c: Config)
      ensures fresh(c) && c.mode == ShippedMode
      ensures c.ShouldCallAppAPI() && c.ShouldCallPredictionAPI() && c.ShouldShowPredictionUI()
      ensures c.GetModeDescription() == BothDescription
    {
      c := Load(ShippedMode);
    }

    /** Whether attempts go to the data-collection app. */
    function ShouldCallAppAPI(): (r: bool)
      ensures r <==> ParseMode(mode) in {Some(DataCollection), Some(Both)}
    {
      mode == "DATA_COLLECTION" || mode == "BOTH"
    }

    /** Whether attempts go to the prediction service. */
    function ShouldCallPredictionAPI(): (r: bool)
      ensures r <==> ParseMode(mode) in {Some(Prediction), Some(Both)}
    {
      mode == "PREDICTION" || mode == "BOTH"
    }

    /** Whether the prediction button is shown: the stored flag, nothing more. */
    function ShouldShowPredictionUI(): (r: bool)
      reads this
      ensures r == enablePredictionUI
    {
      enablePredictionUI
    }

    /** A fixed label per mode and a fallback for a value that names no mode. */
    function GetModeDescription(): (r: string)
      ensures r == UnknownDescription <==> ParseMode(mode).None?
      ensures ParseMode(mode) == Some(DataCollection) ==> r == DataCollectionDescription
      ensures ParseMode(mode) == Some(Prediction) ==> r == PredictionDescription
      ensures ParseMode(mode) == Some(Both) ==> r == BothDescription
    {
      match mode
      case "DATA_COLLECTION" => DataCollectionDescription
      case "PREDICTION" => PredictionDescription
      case "BOTH" => BothDescription
      case _ => UnknownDescription
    }
  }

  /** Every mode activates at least one backend, and only `BOTH` activates both. */
  lemma EveryModeHasABackend(c: Config)
    requires ParseMode(c.mode).Some?
    ensures c.ShouldCallAppAPI() || c.ShouldCallPredictionAPI()
    ensures c.ShouldCallAppAPI() && c.ShouldCallPredictionAPI() <==> c.mode == ModeName(Both)
  {
  }

  /** A value that names no mode switches off both backends and reads as unknown. */
  lemma UnknownModeIsInert(c: Config)
    requires ParseMode(c.mode).None?
    ensures !c.ShouldCallAppAPI() && !c.ShouldCallPredictionAPI()
    ensures c.GetModeDescription() == UnknownDescription
  {
  }

  /** Two recognised modes share a description exactly when they are the same mode. */
  lemma DescriptionsIdentifyModes(c: Config, d: Config)
    requires ParseMode(c.mode).Some? && ParseMode(d.mode).Some?
    ensures c.GetModeDescription() == d.GetModeDescription() <==> c.mode == d.mode
  {
  }
}
