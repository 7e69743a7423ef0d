/** The browser-side scorer of the `DiabetesCalculator` class: coercion of the form fields,
    the eight-feature additive score with its final clamp, and the three-way classification
    at 0.25 and 0.6. All quantities are exact rationals. */
module Calculator {
  import opened Wrappers
  import opened RealArith
  import opened RiskLabels

  /** The record that `getFormData` builds and `computeRiskScore` reads. */
  datatype HealthRecord = HealthRecord(
    pregnancies: real,
    glucose: real,
    bloodPressure: real,
    skinThickness: real,
    insulin: real,
    bmi: real,
    diabetesPedigree: real,
    age: real)

  /** What `parseInt`/`parseFloat` made of each form field; `None` stands for NaN. */
  datatype FormInput = FormInput(
    pregnancies: Option<real>,
    glucose: Option<real>,
    bloodPressure: Option<real>,
    skinThickness: Option<real>,
    insulin: Option<real>,
    bmi: Option<real>,
    diabetesPedigree: Option<real>,
    age: Option<real>)

  /** The label and the CSS class suffix that `determineRiskLevel` returns together. */
  datatype RiskInfo = RiskInfo(level: string, cssClass: string)

  /** A form in which no field parses. */
  const EmptyForm := FormInput(None, None, None, None, None, None, None, None)

  /** The record of fallback values used by `getFormData`. */
  const DefaultRecord := HealthRecord(0.0, 120.0, 70.0, 20.0, 80.0, 25.0, 0.5, 35.0)

  // ---------------------------------------------------------------------------
  // Form coercion

  /** The meaning of `parsed || fallback`: NaN and 0 are both falsy, so either gives the fallback;
      every other number, negative ones included, is kept. This relation is the specification that
      `OrDefault` computes and that `GetFormData` states field by field. */
  predicate KeptOrDefaulted(parsed: Option<real>, fallback: real, r: real)
  {
    if parsed.Some? && parsed.value != 0.0 then r == parsed.value else r == fallback
  }

  /** `parsed || fallback`, evaluated. */
  function OrDefault(parsed: Option<real>, fallback: real): (r: real)
    ensures KeptOrDefaulted(parsed, fallback, r)
    ensures fallback != 0.0 ==> r != 0.0
  {
    match parsed
    case Some(v) => if v != 0.0 then v else fallback
    case None => fallback
  }

  /** True when `parsed || fallback` gives back `fallback`. */
  predicate FallsBackTo(parsed: Option<real>, fallback: real)
  {
    parsed.None? || parsed.value == 0.0 || parsed.value == fallback
  }

  /** `getFormData`: every field falls back to its default when it is NaN or 0, so only the
      pregnancy count can come out as 0. */
  function GetFormData(form: FormInput): (d: HealthRecord)
    ensures KeptOrDefaulted(form.pregnancies, 0.0, d.pregnancies)
    ensures KeptOrDefaulted(form.glucose, 120.0, d.glucose)
    ensures KeptOrDefaulted(form.bloodPressure, 70.0, d.bloodPressure)
    ensures KeptOrDefaulted(form.skinThickness, 20.0, d.skinThickness)
    ensures KeptOrDefaulted(form.insulin, 80.0, d.insulin)
    ensures KeptOrDefaulted(form.bmi, 25.0, d.bmi)
    ensures KeptOrDefaulted(form.diabetesPedigree, 0.5, d.diabetesPedigree)
    ensures KeptOrDefaulted(form.age, 35.0, d.age)
    ensures d.glucose != 0.0 && d.bloodPressure != 0.0 && d.skinThickness != 0.0
    ensures d.insulin != 0.0 && d.bmi != 0.0 && d.diabetesPedigree != 0.0 && d.age != 0.0
  {
    HealthRecord(
      OrDefault(form.pregnancies, DefaultRecord.pregnancies),
      OrDefault(form.glucose, DefaultRecord.glucose),
      OrDefault(form.bloodPressure, DefaultRecord.bloodPressure),
      OrDefault(form.skinThickness, DefaultRecord.skinThickness),
      OrDefault(form.insulin, DefaultRecord.insulin),
      OrDefault(form.bmi, DefaultRecord.bmi),
      OrDefault(form.diabetesPedigree, DefaultRecord.diabetesPedigree),
      OrDefault(form.age, DefaultRecord.age))
  }

  /** A form whose fields hold exactly the values of `d`, as if they had been typed back in. */
  function Resubmit(d: HealthRecord): FormInput
  {
    FormInput(Some(d.pregnancies), Some(d.glucose), Some(d.bloodPressure), Some(d.skinThickness),
              Some(d.insulin), Some(d.bmi), Some(d.diabetesPedigree), Some(d.age))
  }

  /** A form yields the default record exactly when every one of its fields falls back. */
  lemma GetFormDataIsDefaultIff(form: FormInput)
    ensures GetFormData(form) == DefaultRecord <==>
      FallsBackTo(form.pregnancies, 0.0) && FallsBackTo(form.glucose, 120.0) &&
      FallsBackTo(form.bloodPressure, 70.0) && FallsBackTo(form.skinThickness, 20.0) &&
      FallsBackTo(form.insulin, 80.0) && FallsBackTo(form.bmi, 25.0) &&
      FallsBackTo(form.diabetesPedigree, 0.5) && FallsBackTo(form.age, 35.0)
  {
  }

  /** Entering the coerced values again changes nothing: coercion is idempotent. */
  lemma GetFormDataResubmit(form: FormInput)
    ensures GetFormData(Resubmit(GetFormData(form))) == GetFormData(form)
  {
  }

  // ---------------------------------------------------------------------------
  // The eight terms of the additive score

  /** Glucose: 0.3 from 126, 0.15 from 100, below that a ramp that is 0 at 70, approaches 0.1
      at 100 and is negative below 70. */
  function GlucoseTerm(glucose: real): (t: real)
    ensures t <= 0.3
    ensures t == 0.3 <==> glucose >= 126.0
    ensures t == 0.15 <==> 100.0 <= glucose < 126.0
    ensures glucose < 100.0 ==> t < 0.1 && t * 300.0 == glucose - 70.0
    ensures t < 0.0 <==> glucose < 70.0
  {
    if glucose >= 126.0 then 0.3
    else if glucose >= 100.0 then 0.15
    else (glucose - 70.0) / 30.0 * 0.1
  }

  /** BMI: 0.2 from 30, 0.1 from 25, below that a ramp that is 0 at 18, approaches 0.05 at 25
      and is negative below 18. */
  function BmiTerm(bmi: real): (t: real)
    ensures t <= 0.2
    ensures t == 0.2 <==> bmi >= 30.0
    ensures t == 0.1 <==> 25.0 <= bmi < 30.0
    ensures bmi < 25.0 ==> t < 0.05 && t * 140.0 == bmi - 18.0
    ensures t < 0.0 <==> bmi < 18.0
  {
    if bmi >= 30.0 then 0.2
    else if bmi >= 25.0 then 0.1
    else (bmi - 18.0) / 7.0 * 0.05
  }

  /** Age: 0.15 from 45, below that a ramp that is 0 at 21, approaches 0.1 at 45 and is
      negative below 21. */
  function AgeTerm(age: real): (t: real)
    ensures t <= 0.15
    ensures t == 0.15 <==> age >= 45.0
    ensures age < 45.0 ==> t < 0.1 && t * 240.0 == age - 21.0
    ensures t < 0.0 <==> age < 21.0
  {
    if age >= 45.0 then 0.15
    else (age - 21.0) / 24.0 * 0.1
  }

  /** Pedigree: a tenth of the pedigree value, with no cap. */
  function PedigreeTerm(pedigree: real): (t: real)
    ensures t * 10.0 == pedigree
  {
    pedigree * 0.1
  }

  /** Pregnancies: 0.03 each, capped at 0.09, and nothing when the count is not positive. */
  function PregnancyTerm(pregnancies: real): (t: real)
    ensures 0.0 <= t <= 0.09
    ensures pregnancies <= 0.0 ==> t == 0.0
    ensures pregnancies >= 3.0 ==> t == 0.09
    ensures 0.0 < pregnancies <= 3.0 ==> t == pregnancies * 0.03
  {
    if pregnancies > 0.0 then Min(pregnancies * 0.03, 0.09) else 0.0
  }

  function BloodPressureTerm(bloodPressure: real): (t: real)
    ensures t == 0.0 || t == 0.05
    ensures t == 0.05 <==> bloodPressure >= 80.0
  {
    if bloodPressure >= 80.0 then 0.05 else 0.0
  }

  function SkinThicknessTerm(skinThickness: real): (t: real)
    ensures t == 0.0 || t == 0.03
    ensures t == 0.03 <==> skinThickness >= 30.0
  {
    if skinThickness >= 30.0 then 0.03 else 0.0
  }

  function InsulinTerm(insulin: real): (t: real)
    ensures t == 0.0 || t == 0.02
    ensures t == 0.02 <==> insulin >= 100.0
  {
    if insulin >= 100.0 then 0.02 else 0.0
  }

  /** Everything except the pedigree term: at most 0.3 + 0.2 + 0.15 + 0.09 + 0.05 + 0.03 + 0.02. */
  function BoundedTerms(d: HealthRecord): real
  {
    GlucoseTerm(d.glucose) + BmiTerm(d.bmi) + AgeTerm(d.age) + PregnancyTerm(d.pregnancies)
    + BloodPressureTerm(d.bloodPressure) + SkinThicknessTerm(d.skinThickness) + InsulinTerm(d.insulin)
  }

  /** The sum before the clamp; no term is clamped on its own. */
  function RawScore(d: HealthRecord): real
  {
    BoundedTerms(d) + PedigreeTerm(d.diabetesPedigree)
  }

  /** The score `computeRiskScore` returns: the raw sum clamped into [0, 1]. */
  function RiskScore(d: HealthRecord): (s: real)
    ensures 0.0 <= s <= 1.0
    ensures 0.0 <= RawScore(d) <= 1.0 ==> s == RawScore(d)
  {
    Clamp01(RawScore(d))
  }

  // ---------------------------------------------------------------------------
  // The step-by-step computation

  /** `computeRiskScore`: accumulates the terms into a local `score` and clamps it. */
  method ComputeRiskScore(data: HealthRecord) returns (score: real)
    ensures score == RiskScore(data)
    ensures 0.0 <= score <= 1.0
  {
    score := 0.0;

    if data.glucose >= 126.0 {
      score := score + 0.3;
    } else if data.glucose >= 100.0 {
      score := score + 0.15;
    } else {
      score := score + (data.glucose - 70.0) / 30.0 * 0.1;
    }
    assert score == GlucoseTerm(data.glucose);

    if data.bmi >= 30.0 {
      score := score + 0.2;
    } else if data.bmi >= 25.0 {
      score := score + 0.1;
    } else {
      score := score + (data.bmi - 18.0) / 7.0 * 0.05;
    }
    assert score == GlucoseTerm(data.glucose) + BmiTerm(data.bmi);

    if data.age >= 45.0 {
      score := score + 0.15;
    } else {
      score := score + (data.age - 21.0) / 24.0 * 0.1;
    }
    ghost var banded := GlucoseTerm(data.glucose) + BmiTerm(data.bmi) + AgeTerm(data.age);
    assert score == banded;

    score := score + data.diabetesPedigree * 0.1;
    assert score == banded + PedigreeTerm(data.diabetesPedigree);

    if data.pregnancies > 0.0 {
      score := score + Min(data.pregnancies * 0.03, 0.09);
    }
    assert score == banded + PedigreeTerm(data.diabetesPedigree) + PregnancyTerm(data.pregnancies);
    if data.bloodPressure >= 80.0 {
      score := score + 0.05;
    }
    if data.skinThickness >= 30.0 {
      score := score + 0.03;
    }
    if data.insulin >= 100.0 {
      score := score + 0.02;
    }
    assert score == RawScore(data);

    score := Min(1.0, Max(0.0, score));
  }

  // ---------------------------------------------------------------------------
  // Classification

  /** `determineRiskLevel`: Low below 0.25, Medium from 0.25 below 0.6, High from 0.6. */
  function DetermineRiskLevel(score: real): (info: RiskInfo)
    ensures info.level == LowRisk <==> score < 0.25
    ensures info.level == MediumRisk <==> 0.25 <= score < 0.6
    ensures info.level == HighRisk <==> score >= 0.6
    ensures info.cssClass == "low" <==> info.level == LowRisk
    ensures info.cssClass == "medium" <==> info.level == MediumRisk
    ensures info.cssClass == "high" <==> info.level == HighRisk
  {
    if score < 0.25 then RiskInfo(LowRisk, "low")
    else if score < 0.6 then RiskInfo(MediumRisk, "medium")
    else RiskInfo(HighRisk, "high")
  }

  /** `calculateRisk` without the display: coerce the form, score the record, classify the score. */
  method CalculateRisk(form: FormInput) returns (score: real, info: RiskInfo)
    ensures score == RiskScore(GetFormData(form))
    ensures info == DetermineRiskLevel(score)
  {
    var formData := GetFormData(form);
    score := ComputeRiskScore(formData);
    info := DetermineRiskLevel(score);
  }

  // ---------------------------------------------------------------------------
  // Properties of the score

  /** Fieldwise order on records: every field of `d1` is at most the same field of `d2`. */
  predicate FieldwiseAtMost(d1: HealthRecord, d2: HealthRecord)
  {
    d1.pregnancies <= d2.pregnancies && d1.glucose <= d2.glucose &&
    d1.bloodPressure <= d2.bloodPressure && d1.skinThickness <= d2.skinThickness &&
    d1.insulin <= d2.insulin && d1.bmi <= d2.bmi &&
    d1.diabetesPedigree <= d2.diabetesPedigree && d1.age <= d2.age
  }

  /** Raising any fields never lowers the score: each ramp stays below the constant of the
      band above it, and every other term is a non-decreasing step or line. */
  lemma RiskScoreMonotone(d1: HealthRecord, d2: HealthRecord)
    requires FieldwiseAtMost(d1, d2)
    ensures RiskScore(d1) <= RiskScore(d2)
  {
    assert GlucoseTerm(d1.glucose) <= GlucoseTerm(d2.glucose);
    assert BmiTerm(d1.bmi) <= BmiTerm(d2.bmi);
    assert AgeTerm(d1.age) <= AgeTerm(d2.age);
    assert PregnancyTerm(d1.pregnancies) <= PregnancyTerm(d2.pregnancies);
  }

  /** All terms but the pedigree contribute at most 0.84, so a score of 1 needs a pedigree of at least 1.6. */
  lemma ScoreOfOneNeedsPedigree(d: HealthRecord)
    ensures BoundedTerms(d) <= 0.84
    ensures RiskScore(d) == 1.0 ==> d.diabetesPedigree >= 1.6
    ensures RawScore(d) >= 1.0 ==> RiskScore(d) == 1.0
  {
  }

  /** The score takes every value in [0, 1]: one witness puts every other term at 0 and lets
      the pedigree term alone carry the score. */
  lemma RiskScoreAttainsEveryValue(s: real)
    requires 0.0 <= s <= 1.0
    ensures exists d :: RiskScore(d) == s
  {
    var d := HealthRecord(0.0, 70.0, 0.0, 0.0, 0.0, 18.0, 10.0 * s, 21.0);
    assert RiskScore(d) == s;
  }

  /** Classification keeps the order of scores. */
  lemma DetermineRiskLevelMonotone(s1: real, s2: real)
    requires s1 <= s2
    ensures Severity(DetermineRiskLevel(s1).level) <= Severity(DetermineRiskLevel(s2).level)
  {
  }

  /** An empty form becomes the default record, which scores 0.15 + 0.1 + 14/240 + 0.05 = 43/120:
      Medium Risk (`bmi` 25 falls in the 25-to-30 band). */
  lemma EmptyFormScore()
    ensures GetFormData(EmptyForm) == DefaultRecord
    ensures RiskScore(DefaultRecord) == 43.0 / 120.0
    ensures DetermineRiskLevel(RiskScore(DefaultRecord)).level == MediumRisk
  {
  }

  /** A record in the normal ranges: 0.05 + 0.1 + 10/240 + 0.0351, about 0.227, is Low Risk. */
  lemma NormalRecordIsLowRisk()
    ensures RiskScore(HealthRecord(0.0, 85.0, 66.0, 29.0, 0.0, 26.6, 0.351, 31.0)) == 0.1851 + 1.0 / 24.0
    ensures DetermineRiskLevel(RiskScore(HealthRecord(0.0, 85.0, 66.0, 29.0, 0.0, 26.6, 0.351, 31.0))).level == LowRisk
  {
  }

  /** A record in the diabetic, obese and over-45 bands: 0.3 + 0.2 + 0.15 + 0.0627 + 0.09 = 0.8027, High Risk. */
  lemma DiabeticRecordIsHighRisk()
    ensures RiskScore(HealthRecord(6.0, 148.0, 72.0, 0.0, 0.0, 33.6, 0.627, 50.0)) == 0.8027
    ensures DetermineRiskLevel(RiskScore(HealthRecord(6.0, 148.0, 72.0, 0.0, 0.0, 33.6, 0.627, 50.0))).level == HighRisk
  {
  }

  /** Extreme values in every field push the raw sum over 1; the score is clamped to exactly 1, High Risk. */
  lemma ExtremeRecordIsClamped()
    ensures RawScore(HealthRecord(20.0, 500.0, 200.0, 100.0, 500.0, 80.0, 5.0, 120.0)) == 1.34
    ensures RiskScore(HealthRecord(20.0, 500.0, 200.0, 100.0, 500.0, 80.0, 5.0, 120.0)) == 1.0
    ensures DetermineRiskLevel(RiskScore(HealthRecord(20.0, 500.0, 200.0, 100.0, 500.0, 80.0, 5.0, 120.0))).level == HighRisk
  {
  }

  /** A glucose below 70 lowers the score: the ramp is not clamped. */
  lemma LowGlucoseLowersScore()
    ensures RiskScore(DefaultRecord.(glucose := 40.0)) < RiskScore(DefaultRecord.(glucose := 70.0))
  {
  }
}
