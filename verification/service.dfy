/** The scoring service: the health probe and the prediction request handler,
    as pure functions of the loaded model (if any) and the decoded request body. */
module Service {
  import opened VitalSigns
  import opened PyValues
  import RiskRule

  /** Class index to the name returned to the caller. */
  const RiskLevels: map<int, string> := map[0 := "Low", 1 := "Medium", 2 := "High"]

  /** The fitted classifier, seen from outside: its label prediction and its
      class-probability output on one sample. Either call may raise. */
  datatype Classifier = Classifier(predict: Vitals -> Call<int>, predictProba: Vitals -> Call<seq<real>>)

  datatype Probabilities = Probabilities(low: real, medium: real, high: real)

  /** What the prediction endpoint answers. */
  datatype Outcome =
    | ModelNotLoaded
    | Missing(fields: seq<VitalField>)
    | InvalidValue
    | OutOfRange(field: VitalField)
    | PredictionFailed
    | Ok(riskLevel: string, confidence: real, probabilities: Probabilities, input: Vitals)

  /** The health probe's answer. */
  datatype HealthReport = HealthReport(httpStatus: int, status: string, modelLoaded: bool)

  /** The accepted physiological range of each field. */
  function ValidRange(f: VitalField): Band
  {
    match f
    case HeartRate => Band(30.0, 200.0)
    case BloodPressure => Band(50.0, 250.0)
    case Temperature => Band(90.0, 110.0)
    case OxygenLevel => Band(70.0, 100.0)
  }

  predicate InRange(v: Vitals, f: VitalField)
  {
    ValidRange(f).Contains(v.Get(f))
  }

  lemma InRangeEveryField(v: Vitals)
    ensures (forall f :: InRange(v, f))
        <==> InRange(v, HeartRate) && InRange(v, BloodPressure) && InRange(v, Temperature) && InRange(v, OxygenLevel)
  {
  }

  /** Every field of the body is present. */
  predicate AllPresent(data: map<string, Json>)
  {
    forall f :: Key(f) in data
  }

  lemma AllPresentByKeys(data: map<string, Json>)
    requires "heart_rate" in data && "blood_pressure" in data
    requires "temperature" in data && "oxygen_level" in data
    ensures AllPresent(data)
  {
    forall f ensures Key(f) in data {
      match f
      case HeartRate =>
      case BloodPressure =>
      case Temperature =>
      case OxygenLevel =>
    }
  }

  /** The health probe. */
  function Health(model: Option<Classifier>): (h: HealthReport)
    ensures h.httpStatus == 200 && h.status == "healthy"
    ensures h.modelLoaded <==> model.Some?
  {
    HealthReport(200, "healthy", model.Some?)
  }

  /** The fields of `fs` whose key the body lacks, in the order of `fs`. */
  function MissingFrom(fs: seq<VitalField>, data: map<string, Json>): (r: seq<VitalField>)
    requires InRequiredOrder(fs)
    ensures forall f :: f in r <==> f in fs && Key(f) !in data
    ensures InRequiredOrder(r)
  {
    if |fs| == 0 then []
    else
      var rest := MissingFrom(fs[1..], data);
      assert forall f :: f in rest ==> Position(fs[0]) < Position(f) by {
        forall f | f in rest ensures Position(fs[0]) < Position(f) {
          var j :| 0 <= j < |fs[1..]| && fs[1..][j] == f;
          assert fs[j + 1] == f;
        }
      }
      if Key(fs[0]) !in data then [fs[0]] + rest else rest
  }

  /** The missing-field list: exactly the absent fields, in the fixed order. */
  function MissingFields(data: map<string, Json>): (r: seq<VitalField>)
    ensures forall f :: f in r <==> Key(f) !in data
    ensures InRequiredOrder(r)
    ensures r == [] <==> AllPresent(data)
  {
    EveryFieldRequired();
    var r := MissingFrom(RequiredFields, data);
    assert r != [] ==> r[0] in r;
    r
  }

  /** The `float` conversion of one present field. */
  function FieldValue(data: map<string, Json>, f: VitalField): Call<real>
    requires Key(f) in data
  {
    ToFloat(data[Key(f)])
  }

  /** The four conversions, left to right; the first exception stops the rest. */
  function Parse(data: map<string, Json>): (r: Call<Vitals>)
    requires AllPresent(data)
    ensures r.Returned? <==> forall f :: FieldValue(data, f).Returned?
    ensures r.Returned? ==> forall f :: FieldValue(data, f) == Returned(r.value.Get(f))
    ensures r.Raised? ==>
      exists f :: FieldValue(data, f) == Raised(r.exc)
        && forall g :: Position(g) < Position(f) ==> FieldValue(data, g).Returned?
  {
    var hr :- FieldValue(data, HeartRate);
    var bp :- FieldValue(data, BloodPressure);
    var temp :- FieldValue(data, Temperature);
    var o2 :- FieldValue(data, OxygenLevel);
    Returned(Vitals(hr, bp, temp, o2))
  }

  /** The range checks, in the fixed order; the first failing field, if any. */
  function FirstOutOfRange(v: Vitals): (r: Option<VitalField>)
    ensures r.None? <==> forall f :: InRange(v, f)
    ensures r.Some? ==> !InRange(v, r.value)
    ensures r.Some? ==> forall g :: Position(g) < Position(r.value) ==> InRange(v, g)
  {
    InRangeEveryField(v);
    if !(30.0 <= v.heartRate <= 200.0) then Some(HeartRate)
    else if !(50.0 <= v.bloodPressure <= 250.0) then Some(BloodPressure)
    else if !(90.0 <= v.temperature <= 110.0) then Some(Temperature)
    else if !(70.0 <= v.oxygenLevel <= 100.0) then Some(OxygenLevel)
    else None
  }

  /** Building the success response: the class-name lookup and the probability
      indexing raise a lookup error when the classifier's output does not fit. */
  function Respond(index: int, probs: seq<real>, v: Vitals): (r: Call<Outcome>)
    ensures r.Returned? <==> index in RiskLevels && |probs| >= 3
    ensures r.Raised? ==> r.exc == LookupError
    ensures r.Returned? ==> r.value.Ok? && r.value.input == v
    ensures r.Returned? ==> r.value.riskLevel == RiskLevels[index]
    ensures r.Returned? ==> r.value.confidence == probs[index]
    ensures r.Returned? ==> r.value.probabilities == Probabilities(probs[0], probs[1], probs[2])
  {
    if index !in RiskLevels then Raised(LookupError)
    else if !(index < |probs|) then Raised(LookupError)
    else if |probs| < 3 then Raised(LookupError)
    else
      Returned(Ok(RiskLevels[index], probs[index],
                  Probabilities(probs[0], probs[1], probs[2]), v))
  }

  /** The body of the `try` block once the model and the fields are known to be there. */
  function Score(model: Classifier, data: map<string, Json>): Call<Outcome>
    requires AllPresent(data)
  {
    var v :- Parse(data);
    match FirstOutOfRange(v)
    case Some(f) => Returned(OutOfRange(f))
    case None =>
      var index :- model.predict(v);
      var probs :- model.predictProba(v);
      Respond(index, probs, v)
  }

  /** The two `except` clauses. */
  function Handle(e: Exception): (o: Outcome)
    ensures o == InvalidValue <==> e == ValueError
    ensures o == PredictionFailed <==> e != ValueError
  {
    if e == ValueError then InvalidValue else PredictionFailed
  }

  /** The prediction endpoint. */
  function Predict(model: Option<Classifier>, data: map<string, Json>): (o: Outcome)
    ensures o.ModelNotLoaded? <==> model.None?
    ensures o.Missing? <==> model.Some? && !AllPresent(data)
    ensures o.Missing? ==> (forall f :: f in o.fields <==> Key(f) !in data) && InRequiredOrder(o.fields)
    ensures o.OutOfRange? ==>
      && AllPresent(data)
      && Parse(data).Returned?
      && FirstOutOfRange(Parse(data).value) == Some(o.field)
    ensures o.Ok? ==>
      && AllPresent(data)
      && Parse(data) == Returned(o.input)
      && forall f :: InRange(o.input, f)
  {
    if model.None? then ModelNotLoaded
    else
      var missing := MissingFields(data);
      if missing != [] then Missing(missing)
      else
        match Score(model.value, data)
        case Returned(o) => o
        case Raised(e) => Handle(e)
  }

  /** The HTTP status of each outcome: 400 for the caller's mistakes, 500 for the service's. */
  function Status(o: Outcome): (code: int)
    ensures code == 200 <==> o.Ok?
    ensures code == 400 <==> o.Missing? || o.InvalidValue? || o.OutOfRange?
    ensures code == 500 <==> o.ModelNotLoaded? || o.PredictionFailed?
  {
    match o
    case Ok(_, _, _, _) => 200
    case Missing(_) => 400
    case InvalidValue => 400
    case OutOfRange(_) => 400
    case ModelNotLoaded => 500
    case PredictionFailed => 500
  }

  /** The fixed part of each error message; the text of a caught exception,
      which follows the two `except` prefixes, is not modelled. */
  function ErrorMessage(o: Outcome): (m: string)
    requires !o.Ok?
    ensures o.Missing? ==> forall f :: f in o.fields ==> Mentions(m, Quote(Key(f)))
    ensures o.OutOfRange? ==> Mentions(m, Key(o.field))
  {
    match o
    case ModelNotLoaded => "Model not loaded"
    case Missing(fields) => MissingMessage(fields)
    case InvalidValue => "Invalid input values: "
    case OutOfRange(f) => RangeMessage(f)
    case PredictionFailed => "Prediction failed: "
  }

  /** The keys of some fields, in the same order. */
  function KeysOf(fields: seq<VitalField>): (keys: seq<string>)
    ensures |keys| == |fields|
    ensures forall i :: 0 <= i < |fields| ==> keys[i] == Key(fields[i])
  {
    seq(|fields|, i requires 0 <= i < |fields| => Key(fields[i]))
  }

  function MissingMessage(fields: seq<VitalField>): (m: string)
    ensures forall f :: f in fields ==> Mentions(m, Quote(Key(f)))
  {
    var keys := KeysOf(fields);
    var m := "Missing required fields: " + ListRepr(keys);
    ListReprMentionsEach(keys);
    assert forall f :: f in fields ==> Mentions(m, Quote(Key(f))) by {
      forall f | f in fields ensures Mentions(m, Quote(Key(f))) {
        var i :| 0 <= i < |fields| && fields[i] == f;
        MentionsInRight("Missing required fields: ", ListRepr(keys), Quote(keys[i]));
      }
    }
    m
  }

  function RangeMessage(f: VitalField): (m: string)
    ensures Mentions(m, Key(f))
  {
    var m := "Invalid " + Key(f) + (match f
      case HeartRate => " (must be 30-200)"
      case BloodPressure => " (must be 50-250)"
      case Temperature => " (must be 90-110 F)"
      case OxygenLevel => " (must be 70-100%)");
    assert MentionsAt(m, Key(f), 8);
    m
  }

  /** The probability the response reports for a level name. */
  function ProbabilityOf(p: Probabilities, level: string): real
  {
    if level == "Low" then p.low
    else if level == "Medium" then p.medium
    else p.high
  }

  /** The class names are exactly the rule's three labels, each named once. */
  lemma RiskLevelsAreTheLabels()
    ensures RiskLevels.Keys == {0, 1, 2}
    ensures forall i, j :: i in RiskLevels && j in RiskLevels && RiskLevels[i] == RiskLevels[j] ==> i == j
  {
  }

  /** Every label the training rule produces has a name in the service's map. */
  lemma RuleLabelsHaveNames(hr: real, bp: real, temp: real, o2: real)
    ensures RiskRule.CalculateRisk(hr, bp, temp, o2) in RiskLevels
  {
  }

  /** The health probe reports the model missing exactly when prediction refuses for that reason. */
  lemma HealthAgreesWithPredict(model: Option<Classifier>, data: map<string, Json>)
    ensures Health(model).httpStatus == 200
    ensures !Health(model).modelLoaded <==> Predict(model, data) == ModelNotLoaded
  {
  }

  /** A conversion error is reported before, and instead of, any range check. */
  lemma ParsingPrecedesRangeChecks(model: Option<Classifier>, data: map<string, Json>)
    requires model.Some? && AllPresent(data) && Parse(data).Raised?
    ensures Parse(data).exc == ValueError ==> Predict(model, data) == InvalidValue
    ensures Parse(data).exc != ValueError ==> Predict(model, data) == PredictionFailed
  {
  }

  /** An exception from the classifier on checked input is handled like any other in the `try` block. */
  lemma ClassifierErrorsAreHandled(model: Option<Classifier>, data: map<string, Json>)
    requires model.Some? && AllPresent(data) && Parse(data).Returned?
    requires FirstOutOfRange(Parse(data).value).None?
    requires model.value.predict(Parse(data).value).Raised?
    ensures Predict(model, data) == Handle(model.value.predict(Parse(data).value).exc)
  {
  }

  /** An exception from the probability output, after the label prediction returned,
      is handled the same way. */
  lemma ProbabilityErrorsAreHandled(model: Option<Classifier>, data: map<string, Json>)
    requires model.Some? && AllPresent(data) && Parse(data).Returned?
    requires FirstOutOfRange(Parse(data).value).None?
    requires model.value.predict(Parse(data).value).Returned?
    requires model.value.predictProba(Parse(data).value).Raised?
    ensures Predict(model, data) == Handle(model.value.predictProba(Parse(data).value).exc)
  {
  }

  /** A range error is reported exactly for a fully converted body, naming its first failing field. */
  lemma PredictOutOfRange(model: Option<Classifier>, data: map<string, Json>, f: VitalField)
    ensures Predict(model, data) == OutOfRange(f) <==>
      && model.Some? && AllPresent(data) && Parse(data).Returned?
      && FirstOutOfRange(Parse(data).value) == Some(f)
  {
  }

  /** "Invalid input values" answers exactly a conversion `ValueError`, or one the
      classifier raises on a body that passed every check. */
  lemma PredictInvalidValue(model: Option<Classifier>, data: map<string, Json>)
    ensures Predict(model, data) == InvalidValue <==>
      && model.Some? && AllPresent(data)
      && (|| Parse(data) == Raised(ValueError)
          || (&& Parse(data).Returned?
              && FirstOutOfRange(Parse(data).value).None?
              && (|| model.value.predict(Parse(data).value) == Raised(ValueError)
                  || (&& model.value.predict(Parse(data).value).Returned?
                      && model.value.predictProba(Parse(data).value) == Raised(ValueError)))))
  {
  }

  /** The conditions under which a request succeeds, in both directions. */
  lemma PredictSucceeds(model: Option<Classifier>, data: map<string, Json>)
    ensures Predict(model, data).Ok? <==>
      && model.Some? && AllPresent(data) && Parse(data).Returned?
      && (forall f :: InRange(Parse(data).value, f))
      && model.value.predict(Parse(data).value).Returned?
      && model.value.predict(Parse(data).value).value in RiskLevels
      && model.value.predictProba(Parse(data).value).Returned?
      && |model.value.predictProba(Parse(data).value).value| >= 3
  {
  }

  /** On success, level and confidence are both those of the predicted class index,
      and the reported triple is the classifier's first three probabilities. */
  lemma SuccessReportsPredictedClass(model: Option<Classifier>, data: map<string, Json>)
    requires Predict(model, data).Ok?
    ensures
      var o := Predict(model, data);
      var index := model.value.predict(o.input).value;
      var probs := model.value.predictProba(o.input).value;
      && model.value.predict(o.input).Returned?
      && model.value.predictProba(o.input).Returned?
      && index in RiskLevels && |probs| >= 3
      && o.riskLevel == RiskLevels[index]
      && o.confidence == probs[index]
      && o.probabilities == Probabilities(probs[0], probs[1], probs[2])
      && o.confidence == ProbabilityOf(o.probabilities, o.riskLevel)
  {
    PredictSucceeds(model, data);
  }

  /** On success, the echoed input is the four converted fields, unchanged. */
  lemma SuccessEchoesInput(model: Option<Classifier>, data: map<string, Json>)
    requires Predict(model, data).Ok?
    ensures forall f :: ToFloat(data[Key(f)]) == Returned(Predict(model, data).input.Get(f))
  {
  }

  /** Range limits are inclusive; the first failing field in the fixed order is the one reported. */
  lemma RangeChecksInclusive()
    ensures FirstOutOfRange(Vitals(30.0, 50.0, 90.0, 70.0)) == None
    ensures FirstOutOfRange(Vitals(200.0, 250.0, 110.0, 100.0)) == None
    ensures FirstOutOfRange(Vitals(29.0, 50.0, 90.0, 70.0)) == Some(HeartRate)
    ensures FirstOutOfRange(Vitals(201.0, 250.0, 110.0, 100.0)) == Some(HeartRate)
    ensures FirstOutOfRange(Vitals(200.0, 251.0, 110.0, 100.0)) == Some(BloodPressure)
    ensures FirstOutOfRange(Vitals(200.0, 250.0, 89.0, 100.0)) == Some(Temperature)
    ensures FirstOutOfRange(Vitals(200.0, 250.0, 110.0, 101.0)) == Some(OxygenLevel)
    ensures FirstOutOfRange(Vitals(30.0, 49.0, 90.0, 70.0)) == Some(BloodPressure)
    ensures FirstOutOfRange(Vitals(30.0, 50.0, 111.0, 70.0)) == Some(Temperature)
    ensures FirstOutOfRange(Vitals(30.0, 50.0, 90.0, 69.0)) == Some(OxygenLevel)
    ensures FirstOutOfRange(Vitals(0.0, 0.0, 0.0, 0.0)) == Some(HeartRate)
  {
  }

  /** A body lacking two fields names exactly those two, in the fixed order. */
  lemma MissingExample(model: Classifier, data: map<string, Json>)
    requires Key(HeartRate) in data && Key(Temperature) in data
    requires Key(BloodPressure) !in data && Key(OxygenLevel) !in data
    ensures Predict(Some(model), data) == Missing([BloodPressure, OxygenLevel])
  {
    assert [OxygenLevel][1..] == [];
    assert MissingFrom([OxygenLevel], data) == [OxygenLevel];
    assert [Temperature, OxygenLevel][1..] == [OxygenLevel];
    assert MissingFrom([Temperature, OxygenLevel], data) == [OxygenLevel];
    assert [BloodPressure, Temperature, OxygenLevel][1..] == [Temperature, OxygenLevel];
    assert MissingFrom([BloodPressure, Temperature, OxygenLevel], data) == [BloodPressure, OxygenLevel];
    assert RequiredFields[1..] == [BloodPressure, Temperature, OxygenLevel];
    assert MissingFields(data) == [BloodPressure, OxygenLevel];
  }

  /** The text of that error: Python's printed form of the list of keys. */
  lemma MissingMessageExample()
    ensures ErrorMessage(Missing([BloodPressure, OxygenLevel]))
         == "Missing required fields: " + "[" + "'blood_pressure'" + ", " + "'oxygen_level'" + "]"
  {
    var keys := KeysOf([BloodPressure, OxygenLevel]);
    assert keys == ["blood_pressure", "oxygen_level"];
    assert keys[1..] == ["oxygen_level"];
    assert QuotedItems(keys) == "'blood_pressure'" + ", " + "'oxygen_level'";
  }

  /** An unconvertible string is reported even when an earlier field is out of range. */
  lemma InvalidBeforeOutOfRangeExample(model: Classifier)
    ensures Predict(Some(model), map["heart_rate" := Number(500.0), "blood_pressure" := Text(None),
                                     "temperature" := Number(98.6), "oxygen_level" := Number(97.0)])
         == InvalidValue
  {
    var data := map["heart_rate" := Number(500.0), "blood_pressure" := Text(None),
                    "temperature" := Number(98.6), "oxygen_level" := Number(97.0)];
    AllPresentByKeys(data);
    assert Parse(data) == Raised(ValueError);
    ParsingPrecedesRangeChecks(Some(model), data);
  }

  /** A JSON null reaches the catch-all handler, not the conversion-error one. */
  lemma NullFieldIsPredictionFailure(model: Classifier)
    ensures Predict(Some(model), map["heart_rate" := Null, "blood_pressure" := Number(120.0),
                                     "temperature" := Number(98.6), "oxygen_level" := Number(97.0)])
         == PredictionFailed
  {
    var data := map["heart_rate" := Null, "blood_pressure" := Number(120.0),
                    "temperature" := Number(98.6), "oxygen_level" := Number(97.0)];
    AllPresentByKeys(data);
    assert Parse(data) == Raised(TypeError);
    ParsingPrecedesRangeChecks(Some(model), data);
  }
}
