/** The server's fallback rule in `predict_diabetes`: three floored terms over glucose, BMI and
    age, summed and clamped into [0, 1], then classified at 0.3 and 0.7 by `get_risk_level`. */
module Server {
  import opened Wrappers
  import opened RealArith
  import opened RiskLabels

  /** The JSON body's numeric fields; `None` is a key that is absent. */
  datatype PredictRequest = PredictRequest(
    pregnancies: Option<real>,
    glucose: Option<real>,
    bmi: Option<real>,
    dpf: Option<real>,
    age: Option<real>)

  /** A successful response: `risk_score` (the risk times 100, before rounding) and `risk_level`. */
  datatype Prediction = Prediction(riskScore: real, riskLevel: string)

  /** A request without any field. */
  const EmptyRequest := PredictRequest(None, None, None, None, None)

  /** `float(data.get(key, 0))`: an absent key reads as 0. */
  function Field(value: Option<real>): (r: real)
    ensures value.None? ==> r == 0.0
    ensures value.Some? ==> r == value.value
  {
    value.GetOr(0.0)
  }

  /** `max(0, (glucose - 70) / 130 * 0.5)`: 0 up to 70, then rising by 1/260 per unit. */
  function GlucoseTerm(glucose: real): (t: real)
    ensures t >= 0.0
    ensures t == 0.0 <==> glucose <= 70.0
    ensures glucose > 70.0 ==> t * 260.0 == glucose - 70.0
  {
    Max(0.0, (glucose - 70.0) / 130.0 * 0.5)
  }

  /** `max(0, (bmi - 18) / 22 * 0.3)`: 0 up to 18, then rising by 3/220 per unit. */
  function BmiTerm(bmi: real): (t: real)
    ensures t >= 0.0
    ensures t == 0.0 <==> bmi <= 18.0
    ensures bmi > 18.0 ==> t * 220.0 == (bmi - 18.0) * 3.0
  {
    Max(0.0, (bmi - 18.0) / 22.0 * 0.3)
  }

  /** `max(0, (age - 21) / 59 * 0.2)`: 0 up to 21, then rising by 1/295 per unit. */
  function AgeTerm(age: real): (t: real)
    ensures t >= 0.0
    ensures t == 0.0 <==> age <= 21.0
    ensures age > 21.0 ==> t * 295.0 == age - 21.0
  {
    Max(0.0, (age - 21.0) / 59.0 * 0.2)
  }

  /** The risk of the rule: the three terms summed and clamped. */
  function Risk(glucose: real, bmi: real, age: real): (r: real)
    ensures 0.0 <= r <= 1.0
  {
    Clamp01(GlucoseTerm(glucose) + BmiTerm(bmi) + AgeTerm(age))
  }

  /** The risk of a request, with its absent fields read as 0; only glucose, BMI and age enter it. */
  function RequestRisk(request: PredictRequest): (r: real)
    ensures 0.0 <= r <= 1.0
  {
    Risk(Field(request.glucose), Field(request.bmi), Field(request.age))
  }

  /** The accumulation in `predict_diabetes`: three `+=` steps, then the clamp. */
  method ComputeRisk(glucose: real, bmi: real, age: real) returns (risk: real)
    ensures risk == Risk(glucose, bmi, age)
    ensures 0.0 <= risk <= 1.0
  {
    risk := 0.0;
    risk := risk + Max(0.0, (glucose - 70.0) / 130.0 * 0.5);
    risk := risk + Max(0.0, (bmi - 18.0) / 22.0 * 0.3);
    risk := risk + Max(0.0, (age - 21.0) / 59.0 * 0.2);
    risk := Min(1.0, Max(0.0, risk));
  }

  /** `get_risk_level`: Low below 0.3, Medium from 0.3 below 0.7, High from 0.7. */
  function GetRiskLevel(risk: real): (level: string)
    ensures level == LowRisk <==> risk < 0.3
    ensures level == MediumRisk <==> 0.3 <= risk < 0.7
    ensures level == HighRisk <==> risk >= 0.7
  {
    if risk < 0.3 then LowRisk
    else if risk < 0.7 then MediumRisk
    else HighRisk
  }

  /** The successful path of `predict_diabetes`: the level is taken from the unscaled risk,
      not from the score that is reported as a percentage. */
  method PredictDiabetes(request: PredictRequest) returns (response: Prediction)
    ensures response.riskScore == 100.0 * RequestRisk(request)
    ensures 0.0 <= response.riskScore <= 100.0
    ensures response.riskLevel == GetRiskLevel(RequestRisk(request))
  {
    var glucose := Field(request.glucose);
    var bmi := Field(request.bmi);
    var age := Field(request.age);
    var risk := ComputeRisk(glucose, bmi, age);
    response := Prediction(risk * 100.0, GetRiskLevel(risk));
    assert response.riskScore == 100.0 * RequestRisk(request);
  }

  // ---------------------------------------------------------------------------
  // Properties of the rule

  /** Raising glucose, BMI or age never lowers the risk. */
  lemma RiskMonotone(glucose1: real, bmi1: real, age1: real, glucose2: real, bmi2: real, age2: real)
    requires glucose1 <= glucose2 && bmi1 <= bmi2 && age1 <= age2
    ensures Risk(glucose1, bmi1, age1) <= Risk(glucose2, bmi2, age2)
  {
  }

  /** The risk is 0 exactly when glucose, BMI and age are all at or below their baselines 70, 18 and 21. */
  lemma RiskZeroIff(glucose: real, bmi: real, age: real)
    ensures Risk(glucose, bmi, age) == 0.0 <==> glucose <= 70.0 && bmi <= 18.0 && age <= 21.0
  {
  }

  /** The risk takes every value in [0, 1]; glucose alone can carry it. */
  lemma RiskAttainsEveryValue(r: real)
    requires 0.0 <= r <= 1.0
    ensures exists glucose, bmi, age :: Risk(glucose, bmi, age) == r
  {
    assert Risk(70.0 + 260.0 * r, 18.0, 21.0) == r;
  }

  /** Pregnancies and the pedigree value are read from the request but do not enter the risk.
      This follows from `RequestRisk` not reading them; the only way they can change the outcome
      of `predict_diabetes` is a `float()` conversion that raises, which is not modelled. */
  lemma RiskIgnoresPregnanciesAndDpf(request1: PredictRequest, request2: PredictRequest)
    requires request1.glucose == request2.glucose && request1.bmi == request2.bmi
    requires request1.age == request2.age
    ensures RequestRisk(request1) == RequestRisk(request2)
  {
  }

  /** Classification keeps the order of risks. */
  lemma GetRiskLevelMonotone(r1: real, r2: real)
    requires r1 <= r2
    ensures Severity(GetRiskLevel(r1)) <= Severity(GetRiskLevel(r2))
  {
  }

  /** A request without fields has risk 0 and is Low Risk. */
  lemma EmptyRequestIsLowRisk()
    ensures RequestRisk(EmptyRequest) == 0.0
    ensures GetRiskLevel(RequestRisk(EmptyRequest)) == LowRisk
  {
    RiskZeroIff(0.0, 0.0, 0.0);
  }
}
