# Diabetes risk assessment page — a Dafny model of its logic

The page collects eight measurements as text, checks them, scores five of
them with a fixed additive rule table, and shows a verdict, a three-tier
risk level, the factors that fired, a confidence figure and canned advice.
This project models that logic in Dafny and proves what it promises:

- `Options` (`options.dfy`): the optional-value datatype the other modules
  share.
- `JsNumbers` (`js_numbers.dfy`): the observable part of JavaScript numbers.
  A parsed value is finite, one of the two infinities, or NaN. Comparisons
  with NaN are false.
- `FormFields` (`form_fields.dfy`): the eight-field record both components
  declare, its key order, and the single-field update.
- `RiskScorer` (`risk_scorer.dfy`): `mockPrediction`. The rule table
  (`RuleTable`) with `TableScore`/`TableFactors` is the reference
  definition. `MockPrediction` is the step-by-step method, one `if` per
  rule, proved equal to it. The lemmas cover the score range, strict
  thresholds, factor order, the verdict/tier mismatch, confidence bounds,
  the ignored fields and monotonicity.
- `DiabetesPredictionForm` (`prediction_form.dfy`): the form component.
  It is a class holding `formData`. `InputChange` is the change handler.
  `HandleSubmit` runs the blank check, then the ordered numeric scan as a
  `for` loop with an early return. It is proved equal to `Validate`, whose
  outcomes are characterised by lemmas.
- `PredictionResultView` (`prediction_result.dfy`): the result screen's
  pure decisions: colour, icon, badge text and variant, the factor section
  and the recommendation lists.
- `IndexPage` (`index_page.dfy`): the page's screen state as a class with
  the fields `currentView`, `predictionResult` and `isLoading`. The submit
  handler is split at its delay into `BeginSubmit` and `CompleteSubmit`.
  `Assess` runs one visit end to end.

External inputs become parameters:
- JavaScript's `Number(...)`, used by the validator, is a parameter
  `number: string -> JsNumber`.
- `parseFloat(...)`, used by the scorer, is a separate parameter
  `parseFloat: string -> JsNumber`. The two may disagree on the same text,
  as JavaScript's do (`"0x10"`).
- `Math.random() * 20` is the parameter `jitter`. The lemmas about
  confidence take it in [0, 20).

Behaviours of the code worth knowing:
- `handleSubmit` checks only `isNaN(Number(v))` and `< 0`; there is no
  finiteness or upper-bound check. So, given the text `"Infinity"`, the
  handler accepts it, and it accepts zero and any large value too
  (`NoUpperBoundAndZeroAccepted`). In the page the browser's number inputs
  sit in front of the handler (see "## Left out").
- The confidence is `min(score + jitter, 95)`. For a score of 100 the
  confidence is 95, which is below the score (`ConfidenceBounds`,
  `EveryRuleFires`).
- `hasDiabetes` uses `> 50` while the tiers break at 30 and 60, and the
  model keeps both thresholds. Because every score is a multiple of five,
  a verdict with the moderate tier happens for the score 55 and no other
  (`VerdictAndTier`).

Preconditions on the page's handlers say which screen offers the control:
- "Start Assessment" appears on the hero screen only.
- The form's submit reaches `BeginSubmit` only while its controls are
  enabled, i.e. `disabled={isLoading}` is false.
- "New Assessment" appears on the result screen only.

## Model

| member | source | states |
|---|---|---|
| `RiskScorer.MockPrediction` | src/pages/Index.tsx:36-81 | The step-by-step scorer returns exactly the table-driven prediction: verdict, tier, confidence and factor list. |
| `RiskScorer.RiskScoreUnfolded` | src/pages/Index.tsx:44-66 | The score is the sum of 30, 25, 20, 15 and 10 over glucose > 140, BMI > 30, age > 45, pregnancies > 3 and diastolic pressure > 90. |
| `RiskScorer.FactorsUnfolded` | src/pages/Index.tsx:45-66 | The factor list is the labels of the rules that fired, in evaluation order. |
| `RiskScorer.ScoreRange` | src/pages/Index.tsx:44-66 | The score is always a multiple of five between 0 and 100. |
| `RiskScorer.AtThresholdNothingAdded` | src/pages/Index.tsx:47-63 | A reading exactly on its threshold does not fire its rule: its label is absent and the score stays within what the other rules give. |
| `RiskScorer.FactorsExactlyTriggered` | src/pages/Index.tsx:45-66 | A rule's label is listed iff the rule fired. Every factor is a table label. Factors appear in table order, with no duplicates and at most five of them. |
| `RiskScorer.Tier` | src/pages/Index.tsx:69-73 | Low iff score < 30, moderate iff 30 ≤ score < 60, high iff score ≥ 60. |
| `RiskScorer.VerdictAndTier` | src/pages/Index.tsx:68-73 | `hasDiabetes` iff score > 50. The verdict never comes with low. High always comes with the verdict. Verdict with moderate happens iff the score is 55. |
| `RiskScorer.ConfidenceBounds` | src/pages/Index.tsx:77 | For jitter in [0,20): min(score, 95) ≤ confidence ≤ 95. Confidence ≤ score + jitter < score + 20. Confidence < score when score > 95. |
| `RiskScorer.UnscoredFieldsIgnored` | src/pages/Index.tsx:37-41 | Changing skin thickness, insulin or the pedigree function never changes the prediction. |
| `RiskScorer.MoreTriggersNeverLower` | src/pages/Index.tsx:44-73 | When every rule that fired still fires, the score, the tier and the verdict never go down. |
| `RiskScorer.OneMoreTrigger` | src/pages/Index.tsx:44-66 | Firing exactly one more rule raises the score by exactly that rule's weight. |
| `RiskScorer.NoRuleFires` | src/pages/Index.tsx:36-81 | For every input on which no rule fires, the result is: no verdict, confidence equal to the jitter, low, no factors. |
| `RiskScorer.EveryRuleFires` | src/pages/Index.tsx:36-81 | For every input on which all five rules fire: score 100, verdict, confidence 95, high, all five labels in table order. |
| `RiskScorer.GlucoseAndBmiOnly` | src/pages/Index.tsx:47-73 | Glucose and BMI alone give score 55, the verdict and the moderate tier. |
| `FormFields.Update` | src/components/DiabetesPredictionForm.tsx:38-43 | The updated form holds the new text in the named field and the old text in the other seven. |
| `FormFields.UpdateLaws` | src/components/DiabetesPredictionForm.tsx:38-43 | Writing a field's own text back changes nothing. A second write to a field overrides the first. |
| `FormFields.FieldsEnumeration` | src/components/DiabetesPredictionForm.tsx:27-36 | The declaration order lists each of the eight fields exactly once, and the field keys are pairwise distinct. |
| `DiabetesPredictionForm.EmptyFields` | src/components/DiabetesPredictionForm.tsx:49 | A field is in the filter's result iff its text is blank after trimming. |
| `DiabetesPredictionForm.PredictionForm.constructor` | src/components/DiabetesPredictionForm.tsx:27-36 | The form starts with all eight fields empty. |
| `DiabetesPredictionForm.PredictionForm.InputChange` | src/components/DiabetesPredictionForm.tsx:38-43 | The form state becomes the old state with only the named field replaced. |
| `DiabetesPredictionForm.PredictionForm.HandleSubmit` | src/components/DiabetesPredictionForm.tsx:45-73 | The blank filter, then the ordered scan with its early return, yields exactly `Validate` of the current form. |
| `DiabetesPredictionForm.FirstRejectedSpec` | src/components/DiabetesPredictionForm.tsx:60-69 | The scan stops at a field whose number is NaN or negative, with every earlier field accepted. It finds nothing iff every field is accepted. |
| `DiabetesPredictionForm.BlankComesFirst` | src/components/DiabetesPredictionForm.tsx:49-57 | Any blank field gives "Missing Information", whatever the numbers. |
| `DiabetesPredictionForm.InvalidNamesFirstRejected` | src/components/DiabetesPredictionForm.tsx:59-69 | "Invalid Input" names field f iff: no field is blank, f's number is NaN or negative, and every earlier field is accepted. |
| `DiabetesPredictionForm.SubmittedExactlyWhenAllValid` | src/components/DiabetesPredictionForm.tsx:49-72 | The form is handed on iff every field is non-blank, not NaN and not negative. It is handed on unchanged. |
| `DiabetesPredictionForm.NoUpperBoundAndZeroAccepted` | src/components/DiabetesPredictionForm.tsx:62 | Zero, very large values and positive infinity all pass the check. |
| `DiabetesPredictionForm.FreshFormIsMissingInformation` | src/components/DiabetesPredictionForm.tsx:27-57 | Submitting the initial form gives "Missing Information". |
| `DiabetesPredictionForm.NoticeTitle` | src/components/DiabetesPredictionForm.tsx:50-67 | No notice is shown iff the form is handed on. A blank field gets "Missing Information" and a rejected number gets "Invalid Input". |
| `DiabetesPredictionForm.NoticeDescription` | src/components/DiabetesPredictionForm.tsx:50-67 | No notice is shown iff the form is handed on. A blank field gets "Please fill in all required fields.", and a rejected number gets the sentence naming its field. |
| `DiabetesPredictionForm.InvalidInputText` | src/components/DiabetesPredictionForm.tsx:64 | The sentence is the fixed prefix, then the field's key, then a full stop, and its length is their sum. |
| `DiabetesPredictionForm.InvalidInputTextTellsFieldsApart` | src/components/DiabetesPredictionForm.tsx:64 | Two fields get the same sentence iff they are the same field. |
| `DiabetesPredictionForm.NoticeNamesFirstRejected` | src/components/DiabetesPredictionForm.tsx:44-71 | The notice names field f iff no field is blank, f's number is NaN or negative, and every earlier field's number is neither. There is no notice iff every field is filled in and accepted. |
| `PredictionResultView.RiskColor` | src/components/PredictionResult.tsx:21-32 | Low maps to success, moderate to warning, high to destructive, each iff. |
| `PredictionResultView.RiskIcon` | src/components/PredictionResult.tsx:34-44 | The check icon shows iff the level is low; moderate and high share the alert icon. |
| `PredictionResultView.Recommendations` | src/components/PredictionResult.tsx:46-64 | Low has three recommendations; moderate and high have four each. |
| `PredictionResultView.RecommendationsTellLevelsApart` | src/components/PredictionResult.tsx:46-64 | Two levels get the same list iff they are the same level. |
| `PredictionResultView.BadgeText` | src/components/PredictionResult.tsx:91 | "High Risk Detected" iff `hasDiabetes`, otherwise "Low Risk Detected". |
| `PredictionResultView.VariantFor` | src/components/PredictionResult.tsx:87-88 | The variant is default iff the colour is success. |
| `PredictionResultView.ShowResult` | src/components/PredictionResult.tsx:66-148 | The colour is the level's colour and the recommendations are the level's list, in order. Each field comes from its own mapping: the icon from the level, the badge text from the verdict ("High Risk Detected" or "Low Risk Detected"), the variant from the colour. So the variant is default iff the level is low, and the check icon shows iff the variant is default. The factor section shows iff there are factors, and it lists them unchanged. |
| `PredictionResultView.BadgeCombinations` | src/components/PredictionResult.tsx:87-91 | For a scored form: "Low Risk Detected" on a destructive badge iff 30 ≤ score ≤ 50. "High Risk Detected" never has the default variant. "High Risk Detected" with the warning colour iff the score is 55. |
| `PredictionResultView.GlucoseAloneShowsMixedSignals` | src/components/PredictionResult.tsx:87-119 | Glucose alone shows "Low Risk Detected" on a destructive badge, with the alert icon, the warning colour and one listed factor. |
| `PredictionResultView.FactorSectionWhenARuleFires` | src/components/PredictionResult.tsx:104-122 | The factor section shows iff some rule fired. |
| `IndexPage.Screen.constructor` | src/pages/Index.tsx:31-33 | The page starts on the hero view, with no prediction, not loading. |
| `IndexPage.Screen.Rendered` | src/pages/Index.tsx:107-137 | The form screen shows iff the view is form, with controls disabled iff loading. The result screen shows iff the view is result and a prediction is held. Otherwise the hero screen shows. |
| `IndexPage.Screen.StartAssessment` | src/pages/Index.tsx:166-167 | From the hero screen, the view becomes form; the prediction and the loading flag are unchanged. |
| `IndexPage.Screen.BeginSubmit` | src/pages/Index.tsx:83-84 | Loading becomes true on the form screen, whose controls are now disabled. |
| `IndexPage.Screen.CompleteSubmit` | src/pages/Index.tsx:89-92 | The view becomes result, the prediction stored is the scorer's, and loading becomes false. |
| `IndexPage.Screen.Reset` | src/pages/Index.tsx:95-98 | The view becomes hero and the prediction is cleared; the loading flag is untouched. |
| `IndexPage.RenderedFollowsView` | src/pages/Index.tsx:107-137 | Under the invariant "prediction held iff view is result", the screen shown is the current view. |
| `IndexPage.Assess` | src/pages/Index.tsx:83-135 | A form that passes validation ends on the result screen with its prediction, and a reset then shows the hero screen. A rejected form leaves the form screen showing, controls enabled. |

## Left out

- Exact `Number(...)` and `parseFloat(...)` semantics on strings: they are parameters, so every property holds for any conversion.
- `Math.random()`: replaced by the `jitter` parameter.
- ConfidenceBounds: the confidence is computed exactly over reals, so IEEE double rounding of `score + jitter` is not modelled. With a jitter just below 20, the program's sum can round up to exactly `score + 20`, which the strict bound `c < s + 20` does not allow.
- The two-second `setTimeout` and the `await`: modelled as two discrete transitions, with no timing.
- The `toast` call itself and its `destructive` variant: `HandleSubmit` returns which notice is shown, and `NoticeTitle` and `NoticeDescription` give its text.
- InputChange / HandleSubmit: the browser layer in front of the handlers is not modelled. The inputs are `type="number" step="any" min="0"` (src/components/DiabetesPredictionForm.tsx:161-163). A browser gives a number input the value "" unless its text is a valid floating-point string, so text such as "Infinity" or "abc" reaches `handleSubmit` as "" and gets "Missing Information". Browser form validation also blocks the submit event while a value is below `min`, so a negative number never reaches `handleSubmit` from the page. The model lets any text through `InputChange` to `HandleSubmit`. This over-approximates what the page can receive, and every property still holds for the inputs that do arrive.
- React re-rendering and unmounting: the form's state does not survive leaving the form screen. `Assess` builds a fresh form for each visit.
- Negative zero: it is not distinguished from zero. Neither the check nor the scorer can tell them apart.
- Rendering, styling and icons, the hero statistics and feature cards, the header and the floating decorations, and the "Learn More" button (which has no handler).
- `confidence.toFixed(1)` and the progress bar value: floating-point display concerns. `ShowResult` passes the confidence through unchanged.
- The `default:` branches of `getRiskColor` and `getRiskIcon`: the risk-level type admits no other value, so they cannot be reached.
