/**
  The page's stand-in for a prediction service (`mockPrediction`): a fixed,
  additive rule table over five of the eight measurements, a yes/no verdict,
  a three-tier risk level, the labels of the rules that fired, and a
  confidence figure padded by a random jitter.

  `parseFloat` is a parameter, and so is the jitter, which stands for
  `Math.random() * 20` and therefore lies in [0, 20).
 */
module RiskScorer {
  import opened JsNumbers
  import opened FormFields

  datatype RiskLevel = Low | Moderate | High

  /** `PredictionData`. The score itself is not part of it. */
  datatype Prediction = Prediction(
    hasDiabetes: bool,
    confidence: real,
    riskLevel: RiskLevel,
    factors: seq<string>)

  /** One row of the rule table: when the field's reading is strictly above
      the threshold, the weight is added and the label is listed */
  datatype Rule = Rule(field: Field, threshold: real, weight: nat, text: string)

  /** The rules in the order they are evaluated */
  const RuleTable: seq<Rule> := [
    Rule(Glucose, 140.0, 30, "Elevated glucose levels"),
    Rule(Bmi, 30.0, 25, "High BMI"),
    Rule(Age, 45.0, 20, "Advanced age"),
    Rule(Pregnancies, 3.0, 15, "Multiple pregnancies"),
    Rule(BloodPressure, 90.0, 10, "High blood pressure")
  ]

  predicate Fires(r: Rule, d: FormData, parseFloat: string -> JsNumber) {
    GreaterThan(parseFloat(Get(d, r.field)), r.threshold)
  }

  /** Sum of the weights of the rules that fire */
  function TableScore(rules: seq<Rule>, d: FormData, parseFloat: string -> JsNumber): int {
    if rules == [] then 0
    else (if Fires(rules[0], d, parseFloat) then rules[0].weight else 0)
         + TableScore(rules[1..], d, parseFloat)
  }

  /** The one-element list holding a rule's label when it fires, or nothing */
  function Listed(fires: bool, text: string): seq<string> {
    if fires then [text] else []
  }

  /** Labels of the rules that fire, in rule order */
  function TableFactors(rules: seq<Rule>, d: FormData, parseFloat: string -> JsNumber): seq<string> {
    if rules == [] then []
    else Listed(Fires(rules[0], d, parseFloat), rules[0].text) + TableFactors(rules[1..], d, parseFloat)
  }

  function TotalWeight(rules: seq<Rule>): int {
    if rules == [] then 0 else rules[0].weight + TotalWeight(rules[1..])
  }

  function RiskScore(d: FormData, parseFloat: string -> JsNumber): int {
    TableScore(RuleTable, d, parseFloat)
  }

  function Factors(d: FormData, parseFloat: string -> JsNumber): seq<string> {
    TableFactors(RuleTable, d, parseFloat)
  }

  /** The three tiers: below 30, below 60, the rest */
  function Tier(score: int): (level: RiskLevel)
    ensures level == Low <==> score < 30
    ensures level == Moderate <==> 30 <= score < 60
    ensures level == High <==> 60 <= score
  {
    if score < 30 then Low else if score < 60 then Moderate else High
  }

  function TierRank(level: RiskLevel): nat {
    match level
    case Low => 0
    case Moderate => 1
    case High => 2
  }

  function Confidence(score: int, jitter: real): real {
    Min(score as real + jitter, 95.0)
  }

  /** What `mockPrediction` returns, read off the rule table */
  function Predict(d: FormData, parseFloat: string -> JsNumber, jitter: real): Prediction {
    var score := RiskScore(d, parseFloat);
    Prediction(score > 50, Confidence(score, jitter), Tier(score), Factors(d, parseFloat))
  }

  /** `mockPrediction`, step by step: one `if` per rule, adding to the
      running score and pushing the label, then the verdict and the tier */
  method MockPrediction(data: FormData, parseFloat: string -> JsNumber, jitter: real)
    returns (p: Prediction)
    ensures p == Predict(data, parseFloat, jitter)
  {
    var glucose := parseFloat(data.glucose);
    var bmi := parseFloat(data.bmi);
    var age := parseFloat(data.age);
    var pregnancies := parseFloat(data.pregnancies);
    var bloodPressure := parseFloat(data.bloodPressure);

    var riskScore := 0;
    var factors: seq<string> := [];
    ghost var f0 := Listed(GreaterThan(glucose, 140.0), "Elevated glucose levels");
    ghost var f1 := Listed(GreaterThan(bmi, 30.0), "High BMI");
    ghost var f2 := Listed(GreaterThan(age, 45.0), "Advanced age");
    ghost var f3 := Listed(GreaterThan(pregnancies, 3.0), "Multiple pregnancies");
    ghost var f4 := Listed(GreaterThan(bloodPressure, 90.0), "High blood pressure");

    if GreaterThan(glucose, 140.0) {
      riskScore := riskScore + 30;
      factors := factors + ["Elevated glucose levels"];
    }
    assert factors == f0;
    if GreaterThan(bmi, 30.0) {
      riskScore := riskScore + 25;
      factors := factors + ["High BMI"];
    }
    assert factors == f0 + f1;
    if GreaterThan(age, 45.0) {
      riskScore := riskScore + 20;
      factors := factors + ["Advanced age"];
    }
    assert factors == f0 + f1 + f2;
    if GreaterThan(pregnancies, 3.0) {
      riskScore := riskScore + 15;
      factors := factors + ["Multiple pregnancies"];
    }
    assert factors == f0 + f1 + f2 + f3;
    if GreaterThan(bloodPressure, 90.0) {
      riskScore := riskScore + 10;
      factors := factors + ["High blood pressure"];
    }
    assert factors == f0 + f1 + f2 + f3 + f4;
    RiskScoreUnfolded(data, parseFloat);
    FactorsUnfolded(data, parseFloat);
    assert riskScore == RiskScore(data, parseFloat);

    var hasDiabetes := riskScore > 50;
    var riskLevel: RiskLevel;
    if riskScore < 30 {
      riskLevel := Low;
    } else if riskScore < 60 {
      riskLevel := Moderate;
    } else {
      riskLevel := High;
    }

    p := Prediction(hasDiabetes, Min(riskScore as real + jitter, 95.0), riskLevel, factors);
  }

  /** Any five-rule table, scored rule by rule */
  lemma ScoreOfFive(rules: seq<Rule>, d: FormData, parseFloat: string -> JsNumber)
    requires |rules| == 5
    ensures TableScore(rules, d, parseFloat) ==
              (if Fires(rules[0], d, parseFloat) then rules[0].weight else 0)
              + (if Fires(rules[1], d, parseFloat) then rules[1].weight else 0)
              + (if Fires(rules[2], d, parseFloat) then rules[2].weight else 0)
              + (if Fires(rules[3], d, parseFloat) then rules[3].weight else 0)
              + (if Fires(rules[4], d, parseFloat) then rules[4].weight else 0)
  {
    var r1 := rules[1..];
    var r2 := r1[1..];
    var r3 := r2[1..];
    var r4 := r3[1..];
    assert r1[0] == rules[1] && r2[0] == rules[2] && r3[0] == rules[3] && r4[0] == rules[4];
    assert r4[1..] == [];
    assert TableScore(r4, d, parseFloat) == if Fires(rules[4], d, parseFloat) then rules[4].weight else 0;
    assert TableScore(r3, d, parseFloat) ==
             (if Fires(rules[3], d, parseFloat) then rules[3].weight else 0) + TableScore(r4, d, parseFloat);
    assert TableScore(r2, d, parseFloat) ==
             (if Fires(rules[2], d, parseFloat) then rules[2].weight else 0) + TableScore(r3, d, parseFloat);
    assert TableScore(r1, d, parseFloat) ==
             (if Fires(rules[1], d, parseFloat) then rules[1].weight else 0) + TableScore(r2, d, parseFloat);
  }

  /** Any five-rule table, its labels listed rule by rule */
  lemma FactorsOfFive(rules: seq<Rule>, d: FormData, parseFloat: string -> JsNumber)
    requires |rules| == 5
    ensures TableFactors(rules, d, parseFloat) ==
              Listed(Fires(rules[0], d, parseFloat), rules[0].text)
              + (Listed(Fires(rules[1], d, parseFloat), rules[1].text)
              + (Listed(Fires(rules[2], d, parseFloat), rules[2].text)
              + (Listed(Fires(rules[3], d, parseFloat), rules[3].text)
              + Listed(Fires(rules[4], d, parseFloat), rules[4].text))))
  {
    var r1 := rules[1..];
    var r2 := r1[1..];
    var r3 := r2[1..];
    var r4 := r3[1..];
    assert r1[0] == rules[1] && r2[0] == rules[2] && r3[0] == rules[3] && r4[0] == rules[4];
    assert r4[1..] == [];
    assert TableFactors(r4, d, parseFloat) == Listed(Fires(rules[4], d, parseFloat), rules[4].text);
    assert TableFactors(r3, d, parseFloat) ==
             Listed(Fires(rules[3], d, parseFloat), rules[3].text) + TableFactors(r4, d, parseFloat);
    assert TableFactors(r2, d, parseFloat) ==
             Listed(Fires(rules[2], d, parseFloat), rules[2].text) + TableFactors(r3, d, parseFloat);
    assert TableFactors(r1, d, parseFloat) ==
             Listed(Fires(rules[1], d, parseFloat), rules[1].text) + TableFactors(r2, d, parseFloat);
  }

  lemma FiresAsWritten(d: FormData, parseFloat: string -> JsNumber)
    ensures Fires(RuleTable[0], d, parseFloat) == GreaterThan(parseFloat(d.glucose), 140.0)
    ensures Fires(RuleTable[1], d, parseFloat) == GreaterThan(parseFloat(d.bmi), 30.0)
    ensures Fires(RuleTable[2], d, parseFloat) == GreaterThan(parseFloat(d.age), 45.0)
    ensures Fires(RuleTable[3], d, parseFloat) == GreaterThan(parseFloat(d.pregnancies), 3.0)
    ensures Fires(RuleTable[4], d, parseFloat) == GreaterThan(parseFloat(d.bloodPressure), 90.0)
  {
  }

  /** The rule table spelled out: weights 30/25/20/15/10 for glucose, BMI,
      age, pregnancies and diastolic pressure, each behind a strict `>` */
  lemma RiskScoreUnfolded(d: FormData, parseFloat: string -> JsNumber)
    ensures RiskScore(d, parseFloat) ==
              (if GreaterThan(parseFloat(d.glucose), 140.0) then 30 else 0)
              + (if GreaterThan(parseFloat(d.bmi), 30.0) then 25 else 0)
              + (if GreaterThan(parseFloat(d.age), 45.0) then 20 else 0)
              + (if GreaterThan(parseFloat(d.pregnancies), 3.0) then 15 else 0)
              + (if GreaterThan(parseFloat(d.bloodPressure), 90.0) then 10 else 0)
  {
    ScoreOfFive(RuleTable, d, parseFloat);
    FiresAsWritten(d, parseFloat);
  }

  /** The labels spelled out, in the order the rules are evaluated */
  lemma FactorsUnfolded(d: FormData, parseFloat: string -> JsNumber)
    ensures Factors(d, parseFloat) ==
              Listed(GreaterThan(parseFloat(d.glucose), 140.0), "Elevated glucose levels")
              + Listed(GreaterThan(parseFloat(d.bmi), 30.0), "High BMI")
              + Listed(GreaterThan(parseFloat(d.age), 45.0), "Advanced age")
              + Listed(GreaterThan(parseFloat(d.pregnancies), 3.0), "Multiple pregnancies")
              + Listed(GreaterThan(parseFloat(d.bloodPressure), 90.0), "High blood pressure")
  {
    FactorsOfFive(RuleTable, d, parseFloat);
    FiresAsWritten(d, parseFloat);
    Regroup(Listed(GreaterThan(parseFloat(d.glucose), 140.0), "Elevated glucose levels"),
            Listed(GreaterThan(parseFloat(d.bmi), 30.0), "High BMI"),
            Listed(GreaterThan(parseFloat(d.age), 45.0), "Advanced age"),
            Listed(GreaterThan(parseFloat(d.pregnancies), 3.0), "Multiple pregnancies"),
            Listed(GreaterThan(parseFloat(d.bloodPressure), 90.0), "High blood pressure"));
  }

  lemma Regroup(a: seq<string>, b: seq<string>, c: seq<string>, d: seq<string>, e: seq<string>)
    ensures a + (b + (c + (d + e))) == a + b + c + d + e
  {
  }

  // ---------------------------------------------------------------------
  // The score

  lemma {:induction false} TableScoreBounds(rules: seq<Rule>, d: FormData, parseFloat: string -> JsNumber)
    ensures 0 <= TableScore(rules, d, parseFloat) <= TotalWeight(rules)
  {
    if rules != [] {
      TableScoreBounds(rules[1..], d, parseFloat);
    }
  }

  lemma {:induction false} TableScoreStepsOfFive(rules: seq<Rule>, d: FormData, parseFloat: string -> JsNumber)
    requires forall i :: 0 <= i < |rules| ==> rules[i].weight % 5 == 0
    ensures TableScore(rules, d, parseFloat) % 5 == 0
  {
    if rules != [] {
      TableScoreStepsOfFive(rules[1..], d, parseFloat);
    }
  }

  /** The score is a multiple of five between 0 and 100 */
  lemma ScoreRange(d: FormData, parseFloat: string -> JsNumber)
    ensures 0 <= RiskScore(d, parseFloat) <= 100
    ensures RiskScore(d, parseFloat) % 5 == 0
  {
    TableScoreBounds(RuleTable, d, parseFloat);
    TableScoreStepsOfFive(RuleTable, d, parseFloat);
    var t := RuleTable;
    assert t[1..] == [t[1], t[2], t[3], t[4]];
    assert t[1..][1..] == [t[2], t[3], t[4]];
    assert t[1..][1..][1..] == [t[3], t[4]];
    assert t[1..][1..][1..][1..] == [t[4]];
    assert TotalWeight(RuleTable) == 100;
  }

  /** A reading exactly on its threshold adds nothing: the label is absent
      and the score is at most what the other four rules can give */
  lemma AtThresholdNothingAdded(d: FormData, parseFloat: string -> JsNumber, k: nat)
    requires k < |RuleTable|
    requires parseFloat(Get(d, RuleTable[k].field)) == Finite(RuleTable[k].threshold)
    ensures RuleTable[k].text !in Factors(d, parseFloat)
    ensures RiskScore(d, parseFloat) <= 100 - RuleTable[k].weight
  {
    FactorsExactlyTriggered(d, parseFloat);
    RiskScoreUnfolded(d, parseFloat);
    assert !Fires(RuleTable[k], d, parseFloat);
  }

  // ---------------------------------------------------------------------
  // The factor list

  /** Position of a label in the rule table, or |RuleTable| for any other text */
  function Rank(text: string): (r: nat)
    ensures r <= |RuleTable|
    ensures r < |RuleTable| ==> RuleTable[r].text == text
  {
    if text == "Elevated glucose levels" then 0
    else if text == "High BMI" then 1
    else if text == "Advanced age" then 2
    else if text == "Multiple pregnancies" then 3
    else if text == "High blood pressure" then 4
    else 5
  }

  predicate InTableOrder(fs: seq<string>) {
    forall a, b :: 0 <= a < b < |fs| ==> Rank(fs[a]) < Rank(fs[b])
  }

  lemma RankOfRule(i: nat)
    requires i < |RuleTable|
    ensures Rank(RuleTable[i].text) == i
  {
  }

  /** A run of rules whose labels rank consecutively from `k` */
  predicate RankedFrom(rules: seq<Rule>, k: nat) {
    forall i :: 0 <= i < |rules| ==> Rank(rules[i].text) == k + i
  }

  lemma RankedTail(rules: seq<Rule>, k: nat)
    requires rules != [] && RankedFrom(rules, k)
    ensures Rank(rules[0].text) == k && RankedFrom(rules[1..], k + 1)
  {
    forall i | 0 <= i < |rules[1..]| ensures Rank(rules[1..][i].text) == (k + 1) + i {
      assert rules[1..][i] == rules[i + 1];
    }
  }

  /** The labels listed for such a run rank within the run, and there are
      no more of them than rules */
  lemma {:induction false} RankedFactorsRange(rules: seq<Rule>, k: nat, d: FormData, parseFloat: string -> JsNumber)
    requires RankedFrom(rules, k)
    ensures forall x :: x in TableFactors(rules, d, parseFloat) ==> k <= Rank(x) < k + |rules|
    ensures |TableFactors(rules, d, parseFloat)| <= |rules|
  {
    if rules != [] {
      RankedTail(rules, k);
      RankedFactorsRange(rules[1..], k + 1, d, parseFloat);
    }
  }

  /** The labels listed for such a run come in rank order */
  lemma {:induction false} RankedFactorsOrdered(rules: seq<Rule>, k: nat, d: FormData, parseFloat: string -> JsNumber)
    requires RankedFrom(rules, k)
    ensures InTableOrder(TableFactors(rules, d, parseFloat))
  {
    if rules != [] {
      RankedTail(rules, k);
      RankedFactorsRange(rules[1..], k + 1, d, parseFloat);
      RankedFactorsOrdered(rules[1..], k + 1, d, parseFloat);
      var rest := TableFactors(rules[1..], d, parseFloat);
      var fs := TableFactors(rules, d, parseFloat);
      if Fires(rules[0], d, parseFloat) {
        assert fs == [rules[0].text] + rest;
        forall a, b | 0 <= a < b < |fs| ensures Rank(fs[a]) < Rank(fs[b]) {
          assert fs[b] == rest[b - 1] && fs[b] in rest;
          if a > 0 {
            assert fs[a] == rest[a - 1];
          }
        }
      } else {
        assert fs == rest;
      }
    }
  }

  /** In such a run a label is listed exactly when its rule fires */
  lemma {:induction false} RankedFactorsListed(rules: seq<Rule>, k: nat, d: FormData, parseFloat: string -> JsNumber)
    requires RankedFrom(rules, k)
    ensures forall i :: 0 <= i < |rules| ==>
              (rules[i].text in TableFactors(rules, d, parseFloat) <==> Fires(rules[i], d, parseFloat))
  {
    if rules != [] {
      RankedTail(rules, k);
      RankedFactorsRange(rules[1..], k + 1, d, parseFloat);
      RankedFactorsListed(rules[1..], k + 1, d, parseFloat);
      var rest := TableFactors(rules[1..], d, parseFloat);
      assert TableFactors(rules, d, parseFloat) == Listed(Fires(rules[0], d, parseFloat), rules[0].text) + rest;
      forall i | 0 <= i < |rules|
        ensures rules[i].text in TableFactors(rules, d, parseFloat) <==> Fires(rules[i], d, parseFloat)
      {
        if i == 0 {
          assert rules[0].text !in rest;
        } else {
          assert rules[i] == rules[1..][i - 1];
          assert rules[i].text != rules[0].text;
        }
      }
    }
  }

  /** `factors` lists exactly the labels of the rules that fired, each once,
      in table order, so at most five of them */
  lemma FactorsExactlyTriggered(d: FormData, parseFloat: string -> JsNumber)
    ensures forall i :: 0 <= i < |RuleTable| ==>
              (RuleTable[i].text in Factors(d, parseFloat) <==> Fires(RuleTable[i], d, parseFloat))
    ensures forall x :: x in Factors(d, parseFloat) ==> Rank(x) < |RuleTable| && RuleTable[Rank(x)].text == x
    ensures InTableOrder(Factors(d, parseFloat))
    ensures forall a, b :: 0 <= a < b < |Factors(d, parseFloat)| ==> Factors(d, parseFloat)[a] != Factors(d, parseFloat)[b]
    ensures |Factors(d, parseFloat)| <= 5
  {
    forall i | 0 <= i < |RuleTable| ensures Rank(RuleTable[i].text) == 0 + i {
      RankOfRule(i);
    }
    RankedFactorsRange(RuleTable, 0, d, parseFloat);
    RankedFactorsOrdered(RuleTable, 0, d, parseFloat);
    RankedFactorsListed(RuleTable, 0, d, parseFloat);
  }

  // ---------------------------------------------------------------------
  // Verdict and tier

  lemma TierMonotone(s: int, t: int)
    requires s <= t
    ensures TierRank(Tier(s)) <= TierRank(Tier(t))
  {
  }

  /** `hasDiabetes` is `score > 50` and the tiers break at 30 and 60, so the
      verdict never comes with the low tier, and it comes with the moderate
      tier for exactly one reachable score: 55 */
  lemma VerdictAndTier(d: FormData, parseFloat: string -> JsNumber, jitter: real)
    ensures Predict(d, parseFloat, jitter).hasDiabetes <==> RiskScore(d, parseFloat) > 50
    ensures Predict(d, parseFloat, jitter).hasDiabetes ==> Predict(d, parseFloat, jitter).riskLevel != Low
    ensures Predict(d, parseFloat, jitter).riskLevel == High ==> Predict(d, parseFloat, jitter).hasDiabetes
    ensures (Predict(d, parseFloat, jitter).hasDiabetes && Predict(d, parseFloat, jitter).riskLevel == Moderate)
            <==> RiskScore(d, parseFloat) == 55
  {
    ScoreRange(d, parseFloat);
  }

  // ---------------------------------------------------------------------
  // Confidence

  /** With the jitter in [0, 20): the confidence never exceeds 95, never
      falls below the smaller of the score and 95, and is pulled below the
      score itself when the score is above 95 */
  lemma ConfidenceBounds(d: FormData, parseFloat: string -> JsNumber, jitter: real)
    requires 0.0 <= jitter < 20.0
    ensures var s := RiskScore(d, parseFloat) as real;
            var c := Predict(d, parseFloat, jitter).confidence;
            && Min(s, 95.0) <= c <= 95.0
            && c <= s + jitter < s + 20.0
            && (s > 95.0 ==> c < s)
  {
  }

  // ---------------------------------------------------------------------
  // Which inputs matter

  lemma {:induction false} TableIgnoresOtherFields(rules: seq<Rule>, d: FormData, e: FormData, parseFloat: string -> JsNumber)
    requires forall i :: 0 <= i < |rules| ==> Get(d, rules[i].field) == Get(e, rules[i].field)
    ensures TableScore(rules, d, parseFloat) == TableScore(rules, e, parseFloat)
    ensures TableFactors(rules, d, parseFloat) == TableFactors(rules, e, parseFloat)
  {
    if rules != [] {
      assert Get(d, rules[0].field) == Get(e, rules[0].field);
      TableIgnoresOtherFields(rules[1..], d, e, parseFloat);
    }
  }

  /** Skin thickness, insulin and the pedigree function are collected but
      never read */
  lemma UnscoredFieldsIgnored(d: FormData, parseFloat: string -> JsNumber, jitter: real,
                              skinThickness: string, insulin: string, pedigree: string)
    ensures Predict(d.(skinThickness := skinThickness, insulin := insulin, diabetesPedigreeFunction := pedigree),
                    parseFloat, jitter)
            == Predict(d, parseFloat, jitter)
  {
    var e := d.(skinThickness := skinThickness, insulin := insulin, diabetesPedigreeFunction := pedigree);
    TableIgnoresOtherFields(RuleTable, d, e, parseFloat);
  }

  lemma {:induction false} TableScoreMonotone(rules: seq<Rule>, d: FormData, pd: string -> JsNumber,
                                              e: FormData, pe: string -> JsNumber)
    requires forall i :: 0 <= i < |rules| && Fires(rules[i], d, pd) ==> Fires(rules[i], e, pe)
    ensures TableScore(rules, d, pd) <= TableScore(rules, e, pe)
  {
    if rules != [] {
      assert Fires(rules[0], d, pd) ==> Fires(rules[0], e, pe);
      TableScoreMonotone(rules[1..], d, pd, e, pe);
    }
  }

  lemma {:induction false} TableScoreOneMore(rules: seq<Rule>, k: nat, d: FormData, pd: string -> JsNumber,
                                             e: FormData, pe: string -> JsNumber)
    requires k < |rules|
    requires forall i :: 0 <= i < |rules| && i != k ==> (Fires(rules[i], d, pd) <==> Fires(rules[i], e, pe))
    requires !Fires(rules[k], d, pd) && Fires(rules[k], e, pe)
    ensures TableScore(rules, e, pe) == TableScore(rules, d, pd) + rules[k].weight
  {
    if k == 0 {
      TableSameFiring(rules[1..], d, pd, e, pe);
    } else {
      assert Fires(rules[0], d, pd) <==> Fires(rules[0], e, pe);
      TableScoreOneMore(rules[1..], k - 1, d, pd, e, pe);
    }
  }

  lemma {:induction false} TableSameFiring(rules: seq<Rule>, d: FormData, pd: string -> JsNumber,
                                           e: FormData, pe: string -> JsNumber)
    requires forall i :: 0 <= i < |rules| ==> (Fires(rules[i], d, pd) <==> Fires(rules[i], e, pe))
    ensures TableScore(rules, d, pd) == TableScore(rules, e, pe)
  {
    if rules != [] {
      assert Fires(rules[0], d, pd) <==> Fires(rules[0], e, pe);
      TableSameFiring(rules[1..], d, pd, e, pe);
    }
  }

  /** Firing more rules (and none fewer) never lowers the score, the tier or
      the verdict; firing exactly one more adds exactly its weight */
  lemma MoreTriggersNeverLower(d: FormData, pd: string -> JsNumber, e: FormData, pe: string -> JsNumber,
                               jd: real, je: real)
    requires forall i :: 0 <= i < |RuleTable| && Fires(RuleTable[i], d, pd) ==> Fires(RuleTable[i], e, pe)
    ensures RiskScore(d, pd) <= RiskScore(e, pe)
    ensures TierRank(Predict(d, pd, jd).riskLevel) <= TierRank(Predict(e, pe, je).riskLevel)
    ensures Predict(d, pd, jd).hasDiabetes ==> Predict(e, pe, je).hasDiabetes
  {
    TableScoreMonotone(RuleTable, d, pd, e, pe);
    TierMonotone(RiskScore(d, pd), RiskScore(e, pe));
  }

  lemma OneMoreTrigger(d: FormData, pd: string -> JsNumber, e: FormData, pe: string -> JsNumber, k: nat)
    requires k < |RuleTable|
    requires forall i :: 0 <= i < |RuleTable| && i != k ==> (Fires(RuleTable[i], d, pd) <==> Fires(RuleTable[i], e, pe))
    requires !Fires(RuleTable[k], d, pd) && Fires(RuleTable[k], e, pe)
    ensures RiskScore(e, pe) == RiskScore(d, pd) + RuleTable[k].weight
    ensures RiskScore(e, pe) > RiskScore(d, pd)
  {
    TableScoreOneMore(RuleTable, k, d, pd, e, pe);
  }

  // ---------------------------------------------------------------------
  // Worked cases

  /** Nothing above its threshold: score 0, low, no verdict, no factors, and
      the confidence is the jitter itself */
  lemma NoRuleFires(d: FormData, parseFloat: string -> JsNumber, jitter: real)
    requires 0.0 <= jitter < 20.0
    requires forall i :: 0 <= i < |RuleTable| ==> !Fires(RuleTable[i], d, parseFloat)
    ensures Predict(d, parseFloat, jitter) == Prediction(false, jitter, Low, [])
  {
    FiresAsWritten(d, parseFloat);
    RiskScoreUnfolded(d, parseFloat);
    FactorsUnfolded(d, parseFloat);
  }

  /** Every rule fires: score 100, high, verdict set, all five labels in
      table order, and the confidence capped at 95, below the score */
  lemma EveryRuleFires(d: FormData, parseFloat: string -> JsNumber, jitter: real)
    requires 0.0 <= jitter < 20.0
    requires forall i :: 0 <= i < |RuleTable| ==> Fires(RuleTable[i], d, parseFloat)
    ensures RiskScore(d, parseFloat) == 100
    ensures Predict(d, parseFloat, jitter) ==
            Prediction(true, 95.0, High,
                       ["Elevated glucose levels", "High BMI", "Advanced age",
                        "Multiple pregnancies", "High blood pressure"])
  {
    FiresAsWritten(d, parseFloat);
    RiskScoreUnfolded(d, parseFloat);
    FactorsUnfolded(d, parseFloat);
  }

  /** Glucose and BMI alone: score 55, verdict set but the tier is moderate */
  lemma GlucoseAndBmiOnly(d: FormData, parseFloat: string -> JsNumber, jitter: real)
    requires GreaterThan(parseFloat(d.glucose), 140.0) && GreaterThan(parseFloat(d.bmi), 30.0)
    requires !GreaterThan(parseFloat(d.age), 45.0) && !GreaterThan(parseFloat(d.pregnancies), 3.0)
    requires !GreaterThan(parseFloat(d.bloodPressure), 90.0)
    ensures RiskScore(d, parseFloat) == 55
    ensures Predict(d, parseFloat, jitter).hasDiabetes
    ensures Predict(d, parseFloat, jitter).riskLevel == Moderate
    ensures Predict(d, parseFloat, jitter).factors == ["Elevated glucose levels", "High BMI"]
  {
    RiskScoreUnfolded(d, parseFloat);
    FactorsUnfolded(d, parseFloat);
  }
}
