/** The app's pipeline state machine. Selecting an image shows it at once,
    classifies it, gates the best prediction on a fixed confidence, fetches
    the landmark's description and shows it; any error thrown along the way
    lands on the error screen, and a reset returns to the home screen. The
    run is modelled as sequential steps; the foreign calls it makes are the
    fields of an `Environment`. */
module App {
  import opened Wrappers
  import opened Types
  import Classifier
  import Gemini

  const ConfidenceThreshold: real := 0.6
  const LowConfidenceMessage := "I couldn't quite see what that was. Can you try getting closer?"
  const GenericErrorMessage := "Something went wrong!"

  /** The outcomes of the foreign calls one run makes: `URL.createObjectURL`
      (which may throw, possibly with an empty message), whether the image
      element ever fires `onload`, the classifier's host, what the model's
      `predict` yields, the generative-text call and `JSON.parse`. */
  datatype Environment = Environment(
    createObjectUrl: ImageFile -> Result<string>,
    imageLoads: bool,
    host: Classifier.Host,
    predicted: Option<seq<PredictionResult>>,
    generate: Gemini.Request -> Gemini.Reply,
    parse: string -> Option<LandmarkData>)

  /** The four state variables of the app. */
  datatype Screen = Screen(
    appState: AppState,
    selectedImageSrc: Option<string>,
    landmarkData: Option<LandmarkData>,
    errorMessage: Option<string>)

  const HomeScreen := Screen(HOME, None, None, None)

  /** The details view is rendered: the result screen with both a record
      and an image to show. */
  predicate ShowsDetails(s: Screen)
  {
    s.appState == RESULT && s.landmarkData.Some? && s.selectedImageSrc.Some?
  }

  /** `error.message || "Something went wrong!"`. */
  function ErrorText(message: string): (r: string)
    ensures r != ""
    ensures message != "" ==> r == message
    ensures message == "" ==> r == GenericErrorMessage
  {
    if message == "" then GenericErrorMessage else message
  }

  /** The confidence gate: a best prediction is accepted when it exists and
      its probability is at least 0.6; otherwise the run fails with the
      low-confidence message. */
  function ConfidenceGate(top: Option<PredictionResult>): (r: Result<PredictionResult>)
    ensures r.Success? <==> top.Some? && top.value.probability >= ConfidenceThreshold
    ensures r.Success? ==> r.value == top.value
    ensures r.Failure? ==> r.error == LowConfidenceMessage
  {
    if top.None? || top.value.probability < ConfidenceThreshold then Failure(LowConfidenceMessage)
    else Success(top.value)
  }

  /** The boundary: probability 0.6 passes, anything below it does not. */
  lemma GateBoundary(className: string, p: real)
    ensures ConfidenceGate(Some(PredictionResult(className, 0.6))).Success?
    ensures p < 0.6 ==> ConfidenceGate(Some(PredictionResult(className, p))).Failure?
    ensures ConfidenceGate(None) == Failure(LowConfidenceMessage)
  {
  }

  // ---------------------------------------------------------------------
  // Transitions
  // ---------------------------------------------------------------------

  /** The screen changes the app can make. Enrichment never fails, so the
      fetching screen can only lead to the result; the result and error
      screens can only go back home, and home never follows home. */
  predicate Step(from: AppState, to: AppState)
  {
    match from
    case HOME => to == ANALYZING_IMAGE || to == ERROR
    case ANALYZING_IMAGE => to == FETCHING_INFO || to == ERROR
    case FETCHING_INFO => to == RESULT
    case RESULT => to == HOME
    case ERROR => to == HOME
  }

  /** Every consecutive pair of screens in `trace` is a `Step`. */
  ghost predicate LegalTrace(trace: seq<AppState>)
  {
    |trace| <= 1 || (Step(trace[0], trace[1]) && LegalTrace(trace[1..]))
  }

  /** Two legal traces joined where the first ends and the second starts
      form a legal trace. */
  lemma {:induction false} LegalTraceAppend(a: seq<AppState>, b: seq<AppState>)
    requires a != [] && LegalTrace(a) && LegalTrace([a[|a| - 1]] + b)
    ensures LegalTrace(a + b)
    decreases |a|
  {
    if |a| == 1 {
      assert a + b == [a[0]] + b;
    } else {
      LegalTraceAppend(a[1..], b);
      assert (a + b)[1..] == a[1..] + b;
    }
  }

  // ---------------------------------------------------------------------
  // One run of `handleImageSelected`
  // ---------------------------------------------------------------------

  /** Where a run ends: the screen, the screens it passed through (in
      order, not counting the home screen it starts from) and the
      classifier's model slot. */
  datatype Run = Run(screen: Screen, visited: seq<AppState>, model: Option<Classifier.TmModel>)

  /** A run ended by a thrown error whose message is `message`. */
  function Caught(shown: Option<string>, passed: seq<AppState>, message: string, model: Option<Classifier.TmModel>): Run
  {
    Run(Screen(ERROR, shown, None, Some(ErrorText(message))), passed + [ERROR], model)
  }

  /** The classification stage of a run: `predictImage`, then the best
      prediction through the confidence gate. Its error is the message the
      run's `catch` receives. */
  function Classify(model: Option<Classifier.TmModel>, env: Environment): Result<PredictionResult>
  {
    match Classifier.PredictOutcome(model, env.host, env.predicted)
    case Failure(e) => Failure(e)
    case Success(predictions) => ConfidenceGate(Classifier.GetTopPrediction(predictions))
  }

  /** The end of a run once the image is shown at `url` and has loaded:
      the classification's error, or the enrichment of the accepted label. */
  function Conclude(url: string, model': Option<Classifier.TmModel>, classified: Result<PredictionResult>, env: Environment): Run
  {
    match classified
    case Failure(e) => Caught(Some(url), [ANALYZING_IMAGE], e, model')
    case Success(top) =>
      var data := Gemini.FetchLandmarkDetails(top.className, env.generate, env.parse);
      Run(Screen(RESULT, Some(url), Some(data), None), [ANALYZING_IMAGE, FETCHING_INFO, RESULT], model')
  }

  /** One run, started on the home screen with the classifier's slot
      holding `model`. */
  function Pipeline(model: Option<Classifier.TmModel>, file: ImageFile, env: Environment): Run
  {
    match env.createObjectUrl(file)
    case Failure(e) => Caught(None, [], e, model)
    case Success(url) =>
      if !env.imageLoads then
        Run(Screen(ANALYZING_IMAGE, Some(url), None, None), [ANALYZING_IMAGE], model)
      else
        Conclude(url, Classifier.ModelAfterLoad(model, env.host), Classify(model, env), env)
  }

  /** Every run follows the transition relation from the home screen, ends
      on its last visited screen, and leaves a state the app can render:
      the details view on the result screen, a non-empty message on the
      error screen. */
  lemma PipelineIsLegal(model: Option<Classifier.TmModel>, file: ImageFile, env: Environment)
    ensures var run := Pipeline(model, file, env);
      && run.visited != []
      && LegalTrace([HOME] + run.visited)
      && run.visited[|run.visited| - 1] == run.screen.appState
      && (run.screen.appState == RESULT ==> ShowsDetails(run.screen))
      && (run.screen.appState == ERROR ==> run.screen.errorMessage.Some? && run.screen.errorMessage.value != "")
  {
  }

  /** The image is shown, and the analysing screen entered, before any
      classification: every run whose object URL was created passes the
      analysing screen first and keeps that URL on screen. */
  lemma ImageShownBeforeClassifying(model: Option<Classifier.TmModel>, file: ImageFile, env: Environment)
    requires env.createObjectUrl(file).Success?
    ensures var run := Pipeline(model, file, env);
      && run.visited[0] == ANALYZING_IMAGE
      && run.screen.selectedImageSrc == Some(env.createObjectUrl(file).value)
  {
  }

  /** A run that reaches the fetching screen always ends on the result
      screen, never on the error screen, with the enrichment's record. */
  lemma AcceptedRunReachesResult(model: Option<Classifier.TmModel>, file: ImageFile, env: Environment)
    requires FETCHING_INFO in Pipeline(model, file, env).visited
    ensures var run := Pipeline(model, file, env);
      && run.screen.appState == RESULT
      && ERROR !in run.visited
      && exists name :: run.screen.landmarkData == Some(Gemini.FetchLandmarkDetails(name, env.generate, env.parse))
  {
  }

  /** A thrown error ends the run on the error screen with its message, or
      the generic message when that is empty; the classifier's errors are
      shown verbatim. */
  lemma ClassifierErrorsAreShown(model: Option<Classifier.TmModel>, file: ImageFile, env: Environment)
    requires env.createObjectUrl(file).Success? && env.imageLoads
    requires Classifier.PredictOutcome(model, env.host, env.predicted).Failure?
    ensures var run := Pipeline(model, file, env);
      && run.screen.appState == ERROR
      && run.screen.errorMessage == Some(Classifier.PredictOutcome(model, env.host, env.predicted).error)
      && run.screen.errorMessage.value in
           {Classifier.LibraryMissingMessage, Classifier.LoadFailedMessage, Classifier.PredictFailedMessage}
  {
  }

  /** When the classifier answers, the run reaches the result screen exactly
      when some prediction has probability at least 0.6; the landmark looked
      up is then a most probable one, the first of them in the model's
      order. Otherwise (no prediction, or all of
      them below 0.6) it ends on the error screen with the low-confidence
      message. */
  lemma ResultIffConfident(model: Option<Classifier.TmModel>, file: ImageFile, env: Environment)
    requires env.createObjectUrl(file).Success? && env.imageLoads
    requires Classifier.LoadResult(model, env.host).Success? && env.predicted.Some?
    ensures var run := Pipeline(model, file, env);
      run.screen.appState == RESULT <==>
        exists p | p in env.predicted.value :: p.probability >= ConfidenceThreshold
    ensures var run := Pipeline(model, file, env);
      run.screen.appState != RESULT ==>
        run.screen.appState == ERROR && run.screen.errorMessage == Some(LowConfidenceMessage)
    ensures var run := Pipeline(model, file, env);
      run.screen.appState == RESULT ==>
        exists top | top in env.predicted.value ::
          && (forall p | p in env.predicted.value :: p.probability <= top.probability)
          && Classifier.Ties(env.predicted.value, top.probability) != []
          && Classifier.Ties(env.predicted.value, top.probability)[0] == top
          && run.screen.landmarkData == Some(Gemini.FetchLandmarkDetails(top.className, env.generate, env.parse))
  {
    var ps := env.predicted.value;
    assert Classifier.PredictOutcome(model, env.host, env.predicted) == Success(Classifier.SortByProbability(ps));
    if ps == [] {
      assert Classifier.SortByProbability(ps) == [];
    } else {
      Classifier.SortedHeadIsMaximum(ps);
      Classifier.SortedHeadIsFirstOfTies(ps);
      var top := Classifier.SortByProbability(ps)[0];
      if top.probability >= ConfidenceThreshold {
        assert top in ps;
      }
    }
  }

  /** A reset always lands on the empty home screen, so a second reset
      changes nothing. */
  function Reset(s: Screen): (r: Screen)
    ensures r.appState == HOME && r.selectedImageSrc.None? && r.landmarkData.None? && r.errorMessage.None?
  {
    HomeScreen
  }

  lemma ResetIsIdempotent(s: Screen)
    ensures Reset(Reset(s)) == Reset(s)
  {
  }

  // ---------------------------------------------------------------------
  // The component
  // ---------------------------------------------------------------------

  class App {
    var appState: AppState
    var selectedImageSrc: Option<string>
    var landmarkData: Option<LandmarkData>
    var errorMessage: Option<string>
    /** Every screen shown since start-up, in order. */
    ghost var visited: seq<AppState>
    /** The classifier service and its module-level model slot. */
    const classifier: Classifier.ClassifierService

    function View(): Screen
      reads this
    {
      Screen(appState, selectedImageSrc, landmarkData, errorMessage)
    }

    /** The screens shown so far follow the transition relation from home
        and end on the current one; the home screen is empty; the result
        screen always renders the details view; the error screen always
        has a message. */
    ghost predicate Valid()
      reads this
    {
      && visited != [] && visited[0] == HOME && LegalTrace(visited)
      && visited[|visited| - 1] == appState
      && (appState == HOME ==> View() == HomeScreen)
      && (appState == RESULT ==> ShowsDetails(View()))
      && (appState == ERROR ==> errorMessage.Some? && errorMessage.value != "")
    }

    constructor ()
      ensures Valid() && View() == HomeScreen && visited == [HOME]
      ensures fresh(classifier) && classifier.model == None
    {
      appState, selectedImageSrc, landmarkData, errorMessage := HOME, None, None, None;
      visited := [HOME];
      classifier := new Classifier.ClassifierService();
    }

    /** `setAppState`, recording the screen shown; only a `Step` is
        allowed. */
    method SetAppState(s: AppState)
      requires visited != [] && LegalTrace(visited) && visited[|visited| - 1] == appState
      requires Step(appState, s)
      modifies this
      ensures visited != [] && LegalTrace(visited)
      ensures appState == s && visited == old(visited) + [s]
      ensures selectedImageSrc == old(selectedImageSrc) && landmarkData == old(landmarkData)
      ensures errorMessage == old(errorMessage)
    {
      LegalTraceAppend(visited, [s]);
      appState := s;
      visited := visited + [s];
    }

    /** The `catch` block of `handleImageSelected`: shows the thrown
        error's message, or the generic one when it is empty. */
    method ShowError(message: string)
      requires Valid() && Step(appState, ERROR)
      modifies this
      ensures Valid()
      ensures View() == old(View()).(appState := ERROR, errorMessage := Some(ErrorText(message)))
      ensures visited == old(visited) + [ERROR]
    {
      errorMessage := Some(ErrorText(message));
      SetAppState(ERROR);
    }

    /** The preload effect run on mount: one `loadModel` call whose error
        is only logged, so no screen changes. */
    method PreloadModel(host: Classifier.Host)
      modifies classifier
      ensures classifier.model == Classifier.ModelAfterLoad(old(classifier.model), host)
    {
      var _ := classifier.LoadModel(host);
    }

    /** `handleImageSelected`: the image picker is shown on the home screen
        only. The run ends as `Pipeline` says, and the screens it shows are
        appended to `visited`. When the image never loads, the run stays
        suspended on the analysing screen. */
    method HandleImageSelected(file: ImageFile, env: Environment)
      requires Valid() && appState == HOME
      modifies this, classifier
      ensures Valid()
      ensures var run := Pipeline(old(classifier.model), file, env);
        && View() == run.screen
        && visited == old(visited) + run.visited
        && classifier.model == run.model
    {
      ghost var run := Pipeline(classifier.model, file, env);
      var imageUrl := env.createObjectUrl(file);
      if imageUrl.Failure? {
        ShowError(imageUrl.error);
        assert run.visited == [ERROR];
        return;
      }
      selectedImageSrc := Some(imageUrl.value);
      SetAppState(ANALYZING_IMAGE);
      if !env.imageLoads {
        assert run.visited == [ANALYZING_IMAGE];
        return;
      }
      var predictions := classifier.PredictImage(env.host, env.predicted);
      if predictions.Failure? {
        ShowError(predictions.error);
        assert run.visited == [ANALYZING_IMAGE, ERROR];
        return;
      }
      var topPrediction := Classifier.GetTopPrediction(predictions.value);
      var accepted := ConfidenceGate(topPrediction);
      if accepted.Failure? {
        ShowError(accepted.error);
        assert run.visited == [ANALYZING_IMAGE, ERROR];
        return;
      }
      Enrich(accepted.value.className, env);
      assert run.visited == [ANALYZING_IMAGE, FETCHING_INFO, RESULT];
    }

    /** The tail of `handleImageSelected` once a label is accepted: the
        fetching screen, then the result screen with the enrichment's
        record. */
    method Enrich(className: string, env: Environment)
      requires Valid() && appState == ANALYZING_IMAGE && selectedImageSrc.Some?
      modifies this
      ensures Valid()
      ensures View() == old(View()).(appState := RESULT,
        landmarkData := Some(Gemini.FetchLandmarkDetails(className, env.generate, env.parse)))
      ensures visited == old(visited) + [FETCHING_INFO, RESULT]
    {
      SetAppState(FETCHING_INFO);
      var data := Gemini.FetchLandmarkDetails(className, env.generate, env.parse);
      landmarkData := Some(data);
      SetAppState(RESULT);
    }

    /** `handleReset`: offered by the result and error screens only. */
    method HandleReset()
      requires Valid() && (appState == RESULT || appState == ERROR)
      modifies this
      ensures Valid()
      ensures View() == Reset(old(View())) && visited == old(visited) + [HOME]
    {
      SetAppState(HOME);
      selectedImageSrc := None;
      landmarkData := None;
      errorMessage := None;
    }
  }

  // ---------------------------------------------------------------------
  // End-to-end scenarios
  // ---------------------------------------------------------------------

  const EiffelTower := LandmarkData("Eiffel Tower", "Built for a world fair.", ["a", "b", "c"], "Iron lattice.", "Go early.")

  function Scenario(predicted: seq<PredictionResult>, reply: Gemini.Reply): Environment
  {
    Environment(
      f => Success("blob:photo"), true, Classifier.Host(true, true), Some(predicted),
      r => reply, t => Some(EiffelTower))
  }

  /** A confident prediction and a well-formed answer reach the result
      screen with the parsed record. */
  lemma ScenarioConfidentAnswer(file: ImageFile)
    ensures var run := Pipeline(None, file,
      Scenario([PredictionResult("Eiffel Tower", 0.92)], Gemini.Answered(Some("{}"))));
      run.screen.appState == RESULT && run.screen.landmarkData == Some(EiffelTower)
  {
  }

  /** A low-confidence prediction ends on the error screen with guidance to
      retry. */
  lemma ScenarioLowConfidence(file: ImageFile)
    ensures var run := Pipeline(None, file,
      Scenario([PredictionResult("Blurry Object", 0.31)], Gemini.Answered(Some("{}"))));
      run.screen.appState == ERROR && run.screen.errorMessage == Some(LowConfidenceMessage)
  {
  }

  /** A failing enrichment call still reaches the result screen, with the
      fallback record named after the label. */
  lemma ScenarioEnrichmentFails(file: ImageFile)
    ensures var run := Pipeline(None, file,
      Scenario([PredictionResult("Eiffel Tower", 0.92)], Gemini.Threw));
      run.screen.appState == RESULT && run.screen.landmarkData == Some(Gemini.Fallback("Eiffel Tower"))
  {
  }
}
