/** The three prediction pages of the application. Each page builds its input
    vector in the order its classifier was trained on, takes the classifier's
    risk, applies its own override and bands the result. The per-page
    functions follow the button handlers; `Evaluate` is the same computation
    driven by a rule table, and the lemmas at the end show the two agree. */
module Pages {
  import opened Wrappers
  import opened Scoring
  import opened OverrideRules

  /** A pre-trained classifier, opaque here: its binary prediction and its
      positive-class probability, which is `None` when the library call fails. */
  datatype Classifier = Classifier(predict: seq<real> -> int, probability: seq<real> -> Option<real>)

  /** The risk the classifier alone gives for a vector. */
  function ModelRisk(clf: Classifier, v: seq<real>): real {
    BaseRisk(clf.predict(v), clf.probability(v))
  }

  datatype Condition = Diabetes | HeartDisease | Parkinsons

  // ---------------------------------------------------------------------
  // Diabetes
  // ---------------------------------------------------------------------

  /** The eight diabetes fields, in the order of the input vector. */
  const DiabetesFields: seq<string> :=
    ["Pregnancies", "Glucose", "BP", "SkinThickness", "Insulin", "BMI", "DPF", "Age"]

  const GlucoseAt: nat := 1
  const BmiAt: nat := 5
  const DiabetesFloor: real := 75.0

  /** The diabetes form, its text fields already read as numbers. */
  datatype DiabetesForm = DiabetesForm(
    pregnancies: real, glucose: real, bp: real, skinThickness: real,
    insulin: real, bmi: real, dpf: real, age: real)

  /** The value of a diabetes field, looked up by its name. */
  function DiabetesField(f: DiabetesForm, name: string): Option<real> {
    if name == "Pregnancies" then Some(f.pregnancies)
    else if name == "Glucose" then Some(f.glucose)
    else if name == "BP" then Some(f.bp)
    else if name == "SkinThickness" then Some(f.skinThickness)
    else if name == "Insulin" then Some(f.insulin)
    else if name == "BMI" then Some(f.bmi)
    else if name == "DPF" then Some(f.dpf)
    else if name == "Age" then Some(f.age)
    else None
  }

  /** The diabetes input vector: position i holds the field named
      DiabetesFields[i]; glucose and BMI sit where the override reads them. */
  function DiabetesVector(f: DiabetesForm): (v: seq<real>)
    ensures |v| == |DiabetesFields| == 8
    ensures forall i :: 0 <= i < |v| ==> DiabetesField(f, DiabetesFields[i]) == Some(v[i])
    ensures DiabetesFields[GlucoseAt] == "Glucose" && v[GlucoseAt] == f.glucose
    ensures DiabetesFields[BmiAt] == "BMI" && v[BmiAt] == f.bmi
  {
    [f.pregnancies, f.glucose, f.bp, f.skinThickness, f.insulin, f.bmi, f.dpf, f.age]
  }

  /** The diabetes page: model risk, raised to 75 when glucose is above 160
      and BMI above 30, then banded and flagged. */
  function DiabetesAssess(f: DiabetesForm, clf: Classifier): (a: Assessment)
    ensures a.risk >= ModelRisk(clf, DiabetesVector(f))
    ensures !(f.glucose > 160.0 && f.bmi > 30.0) ==> a.risk == ModelRisk(clf, DiabetesVector(f))
    ensures f.glucose > 160.0 && f.bmi > 30.0 ==> a.risk >= 75.0 && a.band == High
    ensures a.risk == ModelRisk(clf, DiabetesVector(f)) || (f.glucose > 160.0 && f.bmi > 30.0 && a.risk == DiabetesFloor)
    ensures ValidEstimate(clf.probability(DiabetesVector(f))) ==> 0.0 <= a.risk <= 100.0
    ensures a.band == BandOf(a.risk) && (a.lowConfidence <==> a.risk < 50.0)
  {
    var v := DiabetesVector(f);
    var risk := RaiseToFloor(ModelRisk(clf, v), v[GlucoseAt] > 160.0 && v[BmiAt] > 30.0, DiabetesFloor);
    Classify(risk)
  }

  // ---------------------------------------------------------------------
  // Heart disease
  // ---------------------------------------------------------------------

  /** The thirteen heart-disease fields, in the order of the input vector. */
  const HeartFields: seq<string> :=
    ["age", "sex", "cp", "trestbps", "chol", "fbs", "restecg",
     "thalach", "exang", "oldpeak", "slope", "ca", "thal"]

  const AgeAt: nat := 0
  const TrestbpsAt: nat := 3
  const CholAt: nat := 4
  const HeartFloor: real := 80.0

  /** The heart-disease form, its text fields already read as numbers. */
  datatype HeartForm = HeartForm(
    age: real, sex: real, cp: real, trestbps: real, chol: real, fbs: real,
    restecg: real, thalach: real, exang: real, oldpeak: real, slope: real,
    ca: real, thal: real)

  /** The value of a heart-disease field, looked up by its name. */
  function HeartField(f: HeartForm, name: string): Option<real> {
    if name == "age" then Some(f.age)
    else if name == "sex" then Some(f.sex)
    else if name == "cp" then Some(f.cp)
    else if name == "trestbps" then Some(f.trestbps)
    else if name == "chol" then Some(f.chol)
    else if name == "fbs" then Some(f.fbs)
    else if name == "restecg" then Some(f.restecg)
    else if name == "thalach" then Some(f.thalach)
    else if name == "exang" then Some(f.exang)
    else if name == "oldpeak" then Some(f.oldpeak)
    else if name == "slope" then Some(f.slope)
    else if name == "ca" then Some(f.ca)
    else if name == "thal" then Some(f.thal)
    else None
  }

  /** The heart-disease input vector: position i holds the field named
      HeartFields[i]; age, resting blood pressure and cholesterol sit where
      the override reads them. */
  function HeartVector(f: HeartForm): (v: seq<real>)
    ensures |v| == |HeartFields| == 13
    ensures forall i :: 0 <= i < |v| ==> HeartField(f, HeartFields[i]) == Some(v[i])
    ensures HeartFields[AgeAt] == "age" && v[AgeAt] == f.age
    ensures HeartFields[TrestbpsAt] == "trestbps" && v[TrestbpsAt] == f.trestbps
    ensures HeartFields[CholAt] == "chol" && v[CholAt] == f.chol
  {
    [f.age, f.sex, f.cp, f.trestbps, f.chol, f.fbs, f.restecg,
     f.thalach, f.exang, f.oldpeak, f.slope, f.ca, f.thal]
  }

  /** The heart-disease page: model risk, raised to 80 when age is above 45,
      resting blood pressure above 140 and cholesterol above 240. */
  function HeartAssess(f: HeartForm, clf: Classifier): (a: Assessment)
    ensures a.risk >= ModelRisk(clf, HeartVector(f))
    ensures !(f.age > 45.0 && f.trestbps > 140.0 && f.chol > 240.0) ==> a.risk == ModelRisk(clf, HeartVector(f))
    ensures f.age > 45.0 && f.trestbps > 140.0 && f.chol > 240.0 ==> a.risk >= 80.0 && a.band == High
    ensures a.risk == ModelRisk(clf, HeartVector(f)) || (f.age > 45.0 && f.trestbps > 140.0 && f.chol > 240.0 && a.risk == HeartFloor)
    ensures ValidEstimate(clf.probability(HeartVector(f))) ==> 0.0 <= a.risk <= 100.0
    ensures a.band == BandOf(a.risk) && (a.lowConfidence <==> a.risk < 50.0)
  {
    var v := HeartVector(f);
    var triggered := v[AgeAt] > 45.0 && v[TrestbpsAt] > 140.0 && v[CholAt] > 240.0;
    Classify(RaiseToFloor(ModelRisk(clf, v), triggered, HeartFloor))
  }

  // ---------------------------------------------------------------------
  // Parkinson's disease
  // ---------------------------------------------------------------------

  /** The twenty-two voice-measurement fields, in the order of the input vector. */
  const ParkinsonsFields: seq<string> :=
    ["Fo", "Fhi", "Flo", "Jitter%", "JitterAbs", "RAP",
     "PPQ", "DDP", "Shimmer", "Shimmer(dB)", "APQ3",
     "APQ5", "APQ", "DDA", "NHR", "HNR",
     "RPDE", "DFA", "spread1", "spread2", "D2", "PPE"]

  /** The Parkinson's page: the inputs, one per field and in field order, are
      the vector; the model risk is banded with no override. */
  function ParkinsonsAssess(inputs: seq<real>, clf: Classifier): (a: Assessment)
    ensures a.risk == ModelRisk(clf, inputs)
    ensures clf.probability(inputs).None? ==> (a.risk == 100.0 <==> clf.predict(inputs) == 1)
    ensures ValidEstimate(clf.probability(inputs)) ==> 0.0 <= a.risk <= 100.0
    ensures a.band == BandOf(a.risk) && (a.lowConfidence <==> a.risk < 50.0)
  {
    Classify(ModelRisk(clf, inputs))
  }

  // ---------------------------------------------------------------------
  // The same rule as a table
  // ---------------------------------------------------------------------

  /** The field names of each condition's input vector. */
  function FieldNames(c: Condition): (names: seq<string>)
    ensures |names| == match c case Diabetes => 8 case HeartDisease => 13 case Parkinsons => 22
  {
    match c
    case Diabetes => DiabetesFields
    case HeartDisease => HeartFields
    case Parkinsons => ParkinsonsFields
  }

  /** Each condition's override rules: one rule for diabetes and for heart
      disease, none for Parkinson's. */
  function RuleTable(c: Condition): (rules: seq<Rule>)
    ensures |rules| <= 1 && (|rules| == 0 <==> c == Parkinsons)
    ensures ReadsWithin(rules, |FieldNames(c)|)
    ensures FloorsInRange(rules)
  {
    match c
    case Diabetes =>
      [Rule([Threshold(GlucoseAt, 160.0), Threshold(BmiAt, 30.0)], DiabetesFloor)]
    case HeartDisease =>
      [Rule([Threshold(AgeAt, 45.0), Threshold(TrestbpsAt, 140.0), Threshold(CholAt, 240.0)], HeartFloor)]
    case Parkinsons => []
  }

  /** Table-driven evaluation of a vector of the condition's schema: the
      model's risk, raised to the floor of every firing rule of the
      condition's table and to nothing else, then banded and flagged. */
  function Evaluate(c: Condition, v: seq<real>, clf: Classifier): (a: Assessment)
    requires |v| == |FieldNames(c)|
    ensures a.risk >= ModelRisk(clf, v)
    ensures forall i :: 0 <= i < |RuleTable(c)| && Fires(RuleTable(c)[i], v) ==> a.risk >= RuleTable(c)[i].floor
    ensures (forall i :: 0 <= i < |RuleTable(c)| ==> !Fires(RuleTable(c)[i], v)) ==> a.risk == ModelRisk(clf, v)
    ensures a.risk == ModelRisk(clf, v) ||
      exists i :: 0 <= i < |RuleTable(c)| && Fires(RuleTable(c)[i], v) && a.risk == RuleTable(c)[i].floor
    ensures ValidEstimate(clf.probability(v)) ==> 0.0 <= a.risk <= 100.0
    ensures a.band == BandOf(a.risk) && (a.lowConfidence <==> a.risk < 50.0)
  {
    var base := ModelRisk(clf, v);
    var rules := RuleTable(c);
    Classify(ApplyRules(rules, v, base))
  }

  /** The diabetes page computes what the table says. */
  lemma DiabetesPageFollowsTable(f: DiabetesForm, clf: Classifier)
    ensures Evaluate(Diabetes, DiabetesVector(f), clf) == DiabetesAssess(f, clf)
  {
    var v, rules := DiabetesVector(f), RuleTable(Diabetes);
    var base := ModelRisk(clf, v);
    var ts := rules[0].when;
    assert ts == [Threshold(GlucoseAt, 160.0), Threshold(BmiAt, 30.0)];
    assert Fires(rules[0], v) <==> v[ts[0].field] > ts[0].bound && v[ts[1].field] > ts[1].bound;
    assert rules[1..] == [];
    assert ApplyRules(rules, v, base) == RaiseToFloor(base, Fires(rules[0], v), DiabetesFloor);
  }

  /** The heart-disease page computes what the table says. */
  lemma HeartPageFollowsTable(f: HeartForm, clf: Classifier)
    ensures Evaluate(HeartDisease, HeartVector(f), clf) == HeartAssess(f, clf)
  {
    var v, rules := HeartVector(f), RuleTable(HeartDisease);
    var base := ModelRisk(clf, v);
    var ts := rules[0].when;
    assert ts == [Threshold(AgeAt, 45.0), Threshold(TrestbpsAt, 140.0), Threshold(CholAt, 240.0)];
    assert Fires(rules[0], v) <==>
      v[ts[0].field] > ts[0].bound && v[ts[1].field] > ts[1].bound && v[ts[2].field] > ts[2].bound;
    assert rules[1..] == [];
    assert ApplyRules(rules, v, base) == RaiseToFloor(base, Fires(rules[0], v), HeartFloor);
  }

  /** The Parkinson's page computes what the table says. */
  lemma ParkinsonsPageFollowsTable(inputs: seq<real>, clf: Classifier)
    requires |inputs| == |ParkinsonsFields|
    ensures Evaluate(Parkinsons, inputs, clf) == ParkinsonsAssess(inputs, clf)
  {
  }

  /** A model that is more confident about a vector never gives that vector a
      lower final risk or a less severe band, whatever the condition. */
  lemma EvaluateMonotone(c: Condition, v: seq<real>, weaker: Classifier, stronger: Classifier)
    requires |v| == |FieldNames(c)|
    requires ModelRisk(weaker, v) <= ModelRisk(stronger, v)
    ensures Evaluate(c, v, weaker).risk <= Evaluate(c, v, stronger).risk
    ensures Severity(Evaluate(c, v, weaker).band) <= Severity(Evaluate(c, v, stronger).band)
  {
    ApplyRulesMonotone(RuleTable(c), v, ModelRisk(weaker, v), ModelRisk(stronger, v));
    BandMonotone(Evaluate(c, v, weaker).risk, Evaluate(c, v, stronger).risk);
  }

  // ---------------------------------------------------------------------
  // Worked scenarios
  // ---------------------------------------------------------------------

  /** Glucose 170 and BMI 32 with a 40% model estimate: the floor wins. */
  lemma DiabetesFloorScenario(f: DiabetesForm, clf: Classifier)
    requires f.glucose == 170.0 && f.bmi == 32.0
    requires clf.probability(DiabetesVector(f)) == Some(0.4)
    ensures DiabetesAssess(f, clf) == Assessment(75.0, High, false)
  {
  }

  /** Glucose 100 and BMI 22 with a 20% model estimate: no override, low band,
      low confidence. */
  lemma DiabetesLowScenario(f: DiabetesForm, clf: Classifier)
    requires f.glucose == 100.0 && f.bmi == 22.0
    requires clf.probability(DiabetesVector(f)) == Some(0.2)
    ensures DiabetesAssess(f, clf) == Assessment(20.0, Low, true)
  {
  }

  /** Age 50, resting blood pressure 150 and cholesterol 250 with a 55% model
      estimate: the floor wins. */
  lemma HeartFloorScenario(f: HeartForm, clf: Classifier)
    requires f.age == 50.0 && f.trestbps == 150.0 && f.chol == 250.0
    requires clf.probability(HeartVector(f)) == Some(0.55)
    ensures HeartAssess(f, clf) == Assessment(80.0, High, false)
  {
  }

  /** The same heart-disease trigger with no probability and a negative
      prediction: the fallback 0 is raised to the floor. */
  lemma HeartFallbackScenario(f: HeartForm, clf: Classifier)
    requires f.age == 50.0 && f.trestbps == 150.0 && f.chol == 250.0
    requires clf.probability(HeartVector(f)) == None && clf.predict(HeartVector(f)) == 0
    ensures HeartAssess(f, clf) == Assessment(80.0, High, false)
  {
  }

  /** A 45% estimate on the Parkinson's page: moderate and low confidence. */
  lemma ParkinsonsModerateScenario(inputs: seq<real>, clf: Classifier)
    requires clf.probability(inputs) == Some(0.45)
    ensures ParkinsonsAssess(inputs, clf) == Assessment(45.0, Moderate, true)
  {
  }
}
