/** The page script's logic around the classifier: turning predictions into
    result cards with the knowledge tables, the analyse button's fall-back to
    a fixed example, the colours of a card, and the mocked diagnosis of the
    "describe" tab. The DOM itself is not modelled: a handler's effect is the
    list of cards it shows, the alert it raises and the button's final state. */
module App {
  import opened Outcomes
  import opened JsText
  import opened Ranking
  import opened Detector
  import opened Knowledge
  import opened Labels

  /** One card of the results panel. */
  datatype ResultRecord = ResultRecord(
    plague: string,
    scientific: string,
    confidence: int,
    description: string,
    solutions: seq<string>,
    severity: string)

  /** The record the `predictions.map` callback builds for one prediction:
      named after its label with its confidence unchanged, with the tables'
      entries for that label, and so always with three remedies and a
      severity of `'alta'` or `'media'`. */
  function Enriched(p: Prediction): (r: ResultRecord)
    ensures r.plague == p.name && r.confidence == p.confidence
    ensures r.scientific == ScientificName(p.name) && r.description == Description(p.name)
    ensures r.solutions == Solutions(p.name) && r.severity == Severity(p.name)
    ensures |r.solutions| == 3
    ensures r.severity == "alta" || r.severity == "media"
  {
    ResultRecord(p.name, ScientificName(p.name), p.confidence,
                 Description(p.name), Solutions(p.name), Severity(p.name))
  }

  /** `predictions.map(...)`: one card per prediction, in the same order,
      named after the prediction's label with its confidence unchanged, and
      with the scientific name, description, remedies and severity the
      tables give that label. */
  function Enrich(ps: seq<Prediction>): (r: seq<ResultRecord>)
    ensures |r| == |ps|
    ensures forall k :: 0 <= k < |r| ==>
              r[k].plague == ps[k].name && r[k].confidence == ps[k].confidence
              && r[k].scientific == ScientificName(ps[k].name)
              && r[k].description == Description(ps[k].name)
              && r[k].solutions == Solutions(ps[k].name)
              && r[k].severity == Severity(ps[k].name)
  {
    if ps == [] then [] else [Enriched(ps[0])] + Enrich(ps[1..])
  }

  /** The prediction a card was made from. */
  function PredictionOf(r: ResultRecord): Prediction
  {
    Prediction(r.plague, r.confidence)
  }

  function PredictionsOf(rs: seq<ResultRecord>): seq<Prediction>
  {
    if rs == [] then [] else [PredictionOf(rs[0])] + PredictionsOf(rs[1..])
  }

  /** Enrichment only adds information: the predictions can be read back
      from the cards, in order. */
  lemma {:induction false} EnrichRoundTrip(ps: seq<Prediction>)
    ensures PredictionsOf(Enrich(ps)) == ps
  {
    if ps != [] {
      EnrichRoundTrip(ps[1..]);
    }
  }

  /** The hard-coded example shown when the analysis fails. */
  function FallbackResults(): (r: seq<ResultRecord>)
    ensures |r| == 1 && r[0].confidence == 87
  {
    [ResultRecord(
      "Gusano cogollero",
      "Spodoptera frugiperda",
      87,
      "Plaga común en maíz " + "que ataca las hojas " + "jóvenes y el cogollo. " +
        "Se observan daños en " + "forma de mordeduras " + "irregulares.",
      [ "Aplicar solución de " + "ceniza de tabaco (1kg " + "por 10L de agua)",
        "Introducir enemigos " + "naturales como " + "trichogramma",
        "Rotar cultivos con " + "leguminosas"],
      "alta")]
  }

  /** The example card is exactly the card the tables give a
      "Gusano cogollero" prediction at 87%: same scientific name, description,
      remedies and severity. */
  lemma FallbackIsEnrichedExample()
    ensures FallbackResults() == Enrich([Prediction("Gusano cogollero", 87)])
  {
  }

  /** What the results panel shows: the given cards, or the example of
      `FallbackResults`. */
  datatype Panel = Cards(results: seq<ResultRecord>) | ExampleCards

  function Shown(panel: Panel): seq<ResultRecord>
  {
    match panel
    case Cards(results) => results
    case ExampleCards => FallbackResults()
  }

  /** What the analyse handler leaves on screen. */
  datatype Screen = Screen(panel: Panel, alert: Option<string>, analyzeDisabled: bool)

  const AnalysisAlertPrefix: string := "Error en el análisis. Mostrando resultados de ejemplo. Error: "
  const LoadFailedMessage: string := "No se pudo cargar el modelo de IA"
  const NotLoadedMessage: string := "Modelo no cargado. Llama a loadModel() primero."

  function PredictErrorMessage(e: PredictError): string
  {
    match e
    case NotLoaded => NotLoadedMessage
    case InferenceFailure(message) => message
  }

  /** The analyse button's handler: loads the model first when it is not
      loaded; on a failed load or a failed prediction shows the example card
      and an alert with the error's message, otherwise the enriched
      predictions; re-enables the button on every path. */
  method Analyze(detector: PlagueDetectionModel, load: LoadOutcome, inference: Inference)
    returns (screen: Screen)
    requires detector.Valid()
    modifies detector
    ensures detector.Valid()
    ensures !screen.analyzeDisabled
    ensures old(detector.isModelLoaded) ==>
              detector.model == old(detector.model) && detector.labels == old(detector.labels)
    ensures detector.isModelLoaded == (old(detector.isModelLoaded) || load.LabelsFetched?)
    ensures !old(detector.isModelLoaded) ==>
              detector.labels == if load.LabelsFetched? then ParseLabels(load.text) else old(detector.labels)
    ensures !old(detector.isModelLoaded) && load.ModelUnavailable? ==> detector.model == old(detector.model)
    ensures !old(detector.isModelLoaded) && !load.ModelUnavailable? ==>
              detector.model != null && fresh(detector.model) && !detector.model.disposed
    ensures !detector.isModelLoaded ==>
              screen.panel == ExampleCards && Shown(screen.panel) == FallbackResults()
              && screen.alert == Some(AnalysisAlertPrefix + LoadFailedMessage)
    ensures detector.isModelLoaded && inference.InferenceFailed? ==>
              screen.panel == ExampleCards && Shown(screen.panel) == FallbackResults()
              && screen.alert == Some(AnalysisAlertPrefix + inference.message)
    ensures detector.isModelLoaded && inference.Probabilities? ==>
              screen.panel == Cards(Enrich(PostProcess(inference.values, detector.labels)))
              && screen.alert == None
  {
    var error: Option<string> := None;
    if !detector.isModelLoaded {
      var loaded := detector.LoadModel(load);
      if !loaded {
        error := Some(LoadFailedMessage);
      }
    }
    var shown: seq<ResultRecord> := [];
    if error.None? {
      var predictions := detector.Predict(inference);
      match predictions
      case Success(ps) =>
        shown := Enrich(ps);
      case Failure(e) =>
        error := Some(PredictErrorMessage(e));
    }
    match error
    case None =>
      screen := Screen(Cards(shown), None, false);
    case Some(message) =>
      screen := Screen(ExampleCards, Some(AnalysisAlertPrefix + message), false);
  }

  /** The colours and badge of a card. */
  datatype CardStyle = CardStyle(borderColor: string, badgeClasses: string, badgeText: string, barColor: string)

  /** The three `severity === 'alta' ? ... : severity === 'media' ? ... : ...`
      choices of `displayResults`: red and "Alta" for `'alta'`, amber and
      "Media" for `'media'`, green and "Baja" for anything else. */
  function CardStyleFor(severity: string): (s: CardStyle)
    ensures severity == "alta" ==> s.borderColor == "#ef4444" && s.badgeText == "Alta" && s.barColor == "red"
    ensures severity == "media" ==> s.borderColor == "#f59e0b" && s.badgeText == "Media" && s.barColor == "yellow"
    ensures severity != "alta" && severity != "media" ==>
              s.borderColor == "#10b981" && s.badgeText == "Baja" && s.barColor == "green"
  {
    if severity == "alta" then CardStyle("#ef4444", "bg-red-100 text-red-800", "Alta", "red")
    else if severity == "media" then CardStyle("#f59e0b", "bg-yellow-100 text-yellow-800", "Media", "yellow")
    else CardStyle("#10b981", "bg-green-100 text-green-800", "Baja", "green")
  }

  /** No card made from a prediction is ever styled as low severity, since
      the severity table only answers `'alta'` or `'media'`. */
  lemma EnrichedNeverLow(ps: seq<Prediction>, k: nat)
    requires k < |ps|
    ensures CardStyleFor(Enrich(ps)[k].severity).badgeText != "Baja"
    ensures CardStyleFor(Enrich(ps)[k].severity).borderColor != "#10b981"
  {
  }

  // ---- The "describe" tab ----

  /** The pest the mocked diagnosis names for a crop. */
  function CropPest(crop: string): (r: string)
    ensures PestNamed(r).Some?
    ensures r == "Gusano cogollero" <==> crop == "maiz"
    ensures r == "Mosca blanca" <==> crop == "tomate"
  {
    if crop == "maiz" then "Gusano cogollero" else if crop == "tomate" then "Mosca blanca" else "Pulgón"
  }

  const DescribeAlert: string := "Por favor, selecciona un cultivo y describe los síntomas."

  /** The remedies of the mocked diagnosis. They differ from the generic
      list of `obtenerSoluciones` in one letter ("mańana" for "mañana"). */
  const DescribeSolutions: seq<string> := [
    "Inspeccionar regularmente las plantas en horas de la mańana",
    "Aplicar soluciones biológicas cada 7-10 días",
    "Eliminar plantas muy afectadas para evitar propagación"]

  /** The describe button's handler. `confidenceRoll` and `severityRoll` are
      the two `Math.random()` draws. An empty crop or blank symptoms are
      refused with an alert before anything else happens; otherwise the
      crop picks the pest, whose scientific name is the one the table gives,
      with a confidence from 60 to 89 and a severity of `'alta'` or `'media'`. */
  function Describe(crop: string, symptoms: string, confidenceRoll: real, severityRoll: real)
    : (r: Result<ResultRecord, string>)
    requires 0.0 <= confidenceRoll < 1.0 && 0.0 <= severityRoll < 1.0
    ensures r.Failure? <==> crop == [] || Trim(symptoms) == []
    ensures r.Failure? ==> r.error == DescribeAlert
    ensures r.Success? ==>
              r.value.plague == CropPest(crop)
              && r.value.scientific == ScientificName(r.value.plague)
              && 60 <= r.value.confidence <= 89
              && (r.value.severity == "alta" <==> severityRoll > 0.5)
              && (r.value.severity == "alta" || r.value.severity == "media")
              && r.value.solutions == DescribeSolutions
  {
    if crop == [] || Trim(symptoms) == [] then Failure(DescribeAlert)
    else
      var plague := CropPest(crop);
      var scientific := if crop == "maiz" then "Spodoptera frugiperda" else if crop == "tomate" then "Bemisia tabaci" else "Aphidoidea";
      var damage := if crop == "maiz" then "dańo por gusano cogollero"
                    else if crop == "tomate" then "infestación por mosca blanca" else "ataque de pulgón";
      Success(ResultRecord(
        plague,
        scientific,
        (confidenceRoll * 30.0).Floor + 60,
        "Posible " + damage + " basado en los síntomas descritos.",
        DescribeSolutions,
        if severityRoll > 0.5 then "alta" else "media"))
  }
}
