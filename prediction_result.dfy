/**
  The decisions the result screen makes from a prediction: the colour and
  icon for the risk level, the badge's text and variant, whether the factor
  section is shown and what it lists, and the canned recommendations.
  Markup, styling and number formatting are not modelled.
 */
module PredictionResultView {
  import opened Options
  import opened JsNumbers
  import opened FormFields
  import opened RiskScorer

  datatype Color = Success | Warning | Destructive

  datatype Icon = CheckCircle | AlertCircle

  datatype BadgeVariant = DefaultBadge | DestructiveBadge

  /** `getRiskColor` */
  function RiskColor(level: RiskLevel): (c: Color)
    ensures c == Success <==> level == Low
    ensures c == Warning <==> level == Moderate
    ensures c == Destructive <==> level == High
  {
    match level
    case Low => Success
    case Moderate => Warning
    case High => Destructive
  }

  /** `getRiskIcon`: moderate and high share the alert icon */
  function RiskIcon(level: RiskLevel): (i: Icon)
    ensures i == CheckCircle <==> level == Low
  {
    match level
    case Low => CheckCircle
    case Moderate => AlertCircle
    case High => AlertCircle
  }

  /** `recommendations[riskLevel]` */
  function Recommendations(level: RiskLevel): (r: seq<string>)
    ensures |r| == if level == Low then 3 else 4
  {
    match level
    case Low => [
      "Continue maintaining a healthy lifestyle",
      "Regular exercise and balanced diet",
      "Annual health checkups recommended"
    ]
    case Moderate => [
      "Consider lifestyle modifications",
      "Increase physical activity",
      "Monitor blood sugar levels regularly",
      "Consult with healthcare provider"
    ]
    case High => [
      "Immediate consultation with healthcare provider recommended",
      "Comprehensive diabetes screening advised",
      "Urgent lifestyle changes needed",
      "Consider preventive medications as advised by doctor"
    ]
  }

  /** The badge text follows the verdict alone */
  function BadgeText(hasDiabetes: bool): (t: string)
    ensures t == "High Risk Detected" <==> hasDiabetes
    ensures t == "Low Risk Detected" <==> !hasDiabetes
  {
    if hasDiabetes then "High Risk Detected" else "Low Risk Detected"
  }

  /** The badge variant follows the colour alone */
  function VariantFor(c: Color): (v: BadgeVariant)
    ensures v == DefaultBadge <==> c == Success
  {
    if c == Success then DefaultBadge else DestructiveBadge
  }

  /** Everything the result screen decides */
  datatype ResultCard = ResultCard(
    color: Color,
    icon: Icon,
    badgeText: string,
    badgeVariant: BadgeVariant,
    confidence: real,
    factorSection: Option<seq<string>>,
    recommendations: seq<string>)

  /** The result screen for a prediction */
  function ShowResult(p: Prediction): (card: ResultCard)
    ensures card.color == RiskColor(p.riskLevel)
    ensures card.icon == RiskIcon(p.riskLevel)
    ensures card.badgeText == BadgeText(p.hasDiabetes)
    ensures card.badgeVariant == VariantFor(card.color)
    ensures card.recommendations == Recommendations(p.riskLevel)
    ensures card.badgeVariant == DefaultBadge <==> p.riskLevel == Low
    ensures card.icon == CheckCircle <==> card.badgeVariant == DefaultBadge
    ensures card.badgeText == "High Risk Detected" <==> p.hasDiabetes
    ensures card.factorSection.Some? <==> |p.factors| > 0
    ensures card.factorSection.Some? ==> card.factorSection.value == p.factors
    ensures card.confidence == p.confidence
  {
    var color := RiskColor(p.riskLevel);
    ResultCard(
      color,
      RiskIcon(p.riskLevel),
      BadgeText(p.hasDiabetes),
      VariantFor(color),
      p.confidence,
      if |p.factors| > 0 then Some(p.factors) else None,
      Recommendations(p.riskLevel))
  }

  /** Each level has its own list: the recommendations tell the levels apart */
  lemma RecommendationsTellLevelsApart(a: RiskLevel, b: RiskLevel)
    ensures Recommendations(a) == Recommendations(b) <==> a == b
  {
  }

  // ---------------------------------------------------------------------
  // What the screen shows for a scored form

  /** The badge text and variant come from different thresholds: the low
      text with the destructive variant shows exactly for scores 30 to 50,
      and the high text never shows with the default variant */
  lemma BadgeCombinations(d: FormData, parseFloat: string -> JsNumber, jitter: real)
    ensures var card := ShowResult(Predict(d, parseFloat, jitter));
            card.badgeText == "Low Risk Detected" && card.badgeVariant == DestructiveBadge
            <==> 30 <= RiskScore(d, parseFloat) <= 50
    ensures var card := ShowResult(Predict(d, parseFloat, jitter));
            card.badgeText == "High Risk Detected" ==> card.badgeVariant == DestructiveBadge
    ensures var card := ShowResult(Predict(d, parseFloat, jitter));
            card.badgeText == "High Risk Detected" && card.color == Warning
            <==> RiskScore(d, parseFloat) == 55
  {
    VerdictAndTier(d, parseFloat, jitter);
  }

  /** Glucose alone above its threshold: "Low Risk Detected" on a
      destructive badge, with a warning-coloured alert icon */
  lemma GlucoseAloneShowsMixedSignals(d: FormData, parseFloat: string -> JsNumber, jitter: real)
    requires GreaterThan(parseFloat(d.glucose), 140.0)
    requires !GreaterThan(parseFloat(d.bmi), 30.0) && !GreaterThan(parseFloat(d.age), 45.0)
    requires !GreaterThan(parseFloat(d.pregnancies), 3.0) && !GreaterThan(parseFloat(d.bloodPressure), 90.0)
    ensures ShowResult(Predict(d, parseFloat, jitter)).badgeText == "Low Risk Detected"
    ensures ShowResult(Predict(d, parseFloat, jitter)).badgeVariant == DestructiveBadge
    ensures ShowResult(Predict(d, parseFloat, jitter)).icon == AlertCircle
    ensures ShowResult(Predict(d, parseFloat, jitter)).color == Warning
    ensures ShowResult(Predict(d, parseFloat, jitter)).factorSection == Some(["Elevated glucose levels"])
  {
    RiskScoreUnfolded(d, parseFloat);
    FactorsUnfolded(d, parseFloat);
    assert Factors(d, parseFloat) == ["Elevated glucose levels"] + [] + [] + [] + [];
    assert Predict(d, parseFloat, jitter).factors == ["Elevated glucose levels"];
  }

  /** The factor section shows exactly when some rule fired */
  lemma FactorSectionWhenARuleFires(d: FormData, parseFloat: string -> JsNumber, jitter: real)
    ensures ShowResult(Predict(d, parseFloat, jitter)).factorSection.Some?
            <==> exists i :: 0 <= i < |RuleTable| && Fires(RuleTable[i], d, parseFloat)
  {
    FactorsExactlyTriggered(d, parseFloat);
    var fs := Factors(d, parseFloat);
    if |fs| > 0 {
      assert fs[0] in fs;
      assert Fires(RuleTable[Rank(fs[0])], d, parseFloat);
    }
  }
}
