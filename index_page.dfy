/**
  The page that owns the three screens. Its state is three fields: which
  screen is current, the last prediction (or none), and whether a
  submission is in flight. The submit handler is split at its `await`:
  `BeginSubmit` is what runs before the delay and `CompleteSubmit` what
  runs after it, with the submitted form passed to the second half.
 */
module IndexPage {
  import opened Options
  import opened JsNumbers
  import opened FormFields
  import opened RiskScorer
  import opened DiabetesPredictionForm

  datatype View = Hero | FormView | ResultView

  /** The screen the page renders */
  datatype Page = HeroPage | FormPage(controlsDisabled: bool) | ResultPage(prediction: Prediction)

  class Screen {
    var currentView: View
    var predictionResult: Option<Prediction>
    var isLoading: bool

    /** A prediction is held exactly on the result screen, and a submission
        is in flight only on the form screen */
    ghost predicate Valid()
      reads this
    {
      && (predictionResult.Some? <==> currentView == ResultView)
      && (isLoading ==> currentView == FormView)
    }

    constructor ()
      ensures Valid()
      ensures currentView == Hero && predictionResult == None && !isLoading
    {
      currentView := Hero;
      predictionResult := None;
      isLoading := false;
    }

    /** The render choice: the form screen for the form view, the result
        screen only for the result view with a prediction, the hero
        screen otherwise */
    function Rendered(): (page: Page)
      reads this
      ensures page.FormPage? <==> currentView == FormView
      ensures page.FormPage? ==> page.controlsDisabled == isLoading
      ensures page.ResultPage? <==> currentView == ResultView && predictionResult.Some?
      ensures page.ResultPage? ==> page.prediction == predictionResult.value
    {
      if currentView == FormView then FormPage(isLoading)
      else if currentView == ResultView && predictionResult.Some? then ResultPage(predictionResult.value)
      else HeroPage
    }

    /** The "Start Assessment" button, shown on the hero screen only */
    method StartAssessment()
      requires Valid() && Rendered() == HeroPage
      modifies this
      ensures Valid()
      ensures currentView == FormView
      ensures predictionResult == old(predictionResult) && isLoading == old(isLoading)
      ensures Rendered() == FormPage(false)
    {
      currentView := FormView;
    }

    /** The submit handler up to its delay. The form calls it only when its
        controls are enabled, so never while a submission is in flight. */
    method BeginSubmit()
      requires Valid() && Rendered() == FormPage(false)
      modifies this
      ensures Valid()
      ensures isLoading
      ensures currentView == old(currentView) && predictionResult == old(predictionResult)
      ensures Rendered() == FormPage(true)
    {
      isLoading := true;
    }

    /** The submit handler after its delay: score, store, switch to the
        result screen, clear the loading flag */
    method CompleteSubmit(data: FormData, parseFloat: string -> JsNumber, jitter: real)
      requires Valid() && isLoading
      modifies this
      ensures Valid()
      ensures currentView == ResultView
      ensures predictionResult == Some(Predict(data, parseFloat, jitter))
      ensures !isLoading
      ensures Rendered() == ResultPage(Predict(data, parseFloat, jitter))
    {
      var result := MockPrediction(data, parseFloat, jitter);
      predictionResult := Some(result);
      currentView := ResultView;
      isLoading := false;
    }

    /** The "New Assessment" button on the result screen */
    method Reset()
      requires Valid() && Rendered().ResultPage?
      modifies this
      ensures Valid()
      ensures currentView == Hero && predictionResult == None
      ensures isLoading == old(isLoading)
      ensures Rendered() == HeroPage
    {
      currentView := Hero;
      predictionResult := None;
    }
  }

  /** Under the invariant the render choice is the view itself: the
      result screen is never left without a prediction to show */
  lemma RenderedFollowsView(s: Screen)
    requires s.Valid()
    ensures s.Rendered().HeroPage? <==> s.currentView == Hero
    ensures s.Rendered().ResultPage? <==> s.currentView == ResultView
    ensures s.Rendered().FormPage? ==> (s.Rendered().controlsDisabled <==> s.isLoading)
  {
  }

  /** One visit: start, fill in the form, submit; when the form is accepted,
      wait for the result and then start over. A rejected form leaves the
      form screen showing, controls enabled. The loop over the fields is not
      a loop of the page: it stands for the user's eight typing events, each
      handled by `InputChange`. */
  method Assess(entries: FormData, number: string -> JsNumber, parseFloat: string -> JsNumber, jitter: real)
    returns (shown: Page, afterReset: Page)
    ensures Validate(entries, number).Submitted? ==>
              shown == ResultPage(Predict(entries, parseFloat, jitter)) && afterReset == HeroPage
    ensures !Validate(entries, number).Submitted? ==>
              shown == FormPage(false) && afterReset == FormPage(false)
  {
    var screen := new Screen();
    screen.StartAssessment();
    var form := new PredictionForm();
    for i := 0 to |Fields|
      invariant forall j :: 0 <= j < i ==> Get(form.formData, Fields[j]) == Get(entries, Fields[j])
      modifies form
    {
      form.InputChange(Fields[i], Get(entries, Fields[i]));
    }
    forall f ensures Get(form.formData, f) == Get(entries, f) {
      assert Fields[Position(f)] == f;
    }
    Extensionality(form.formData, entries);
    var outcome := form.HandleSubmit(number);
    if outcome.Submitted? {
      screen.BeginSubmit();
      screen.CompleteSubmit(outcome.data, parseFloat, jitter);
      shown := screen.Rendered();
      screen.Reset();
      afterReset := screen.Rendered();
    } else {
      shown := screen.Rendered();
      afterReset := shown;
    }
  }
}
