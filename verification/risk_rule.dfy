/** The deterministic rule that labels synthetic training samples: an integer
    risk score accumulated from threshold checks on the four vital signs, then
    mapped to a class index 0 (Low), 1 (Medium) or 2 (High). */
module RiskRule {
  import opened VitalSigns

  /** Heart rate: no points inside the normal band, one point outside it,
      a second point outside the tolerated band. */
  const HeartRateNormal := Band(60.0, 100.0)
  const HeartRateTolerated := Band(50.0, 120.0)

  const BloodPressureNormal := Band(90.0, 140.0)
  const BloodPressureTolerated := Band(80.0, 160.0)

  const TemperatureNormal := Band(97.0, 100.0)
  const TemperatureTolerated := Band(96.0, 102.0)

  /** Oxygen is one-sided: one point below the mild limit, two more below the severe one. */
  const OxygenMild: real := 95.0
  const OxygenSevere: real := 90.0

  /** The contribution of a two-sided vital sign: one point for leaving the
      normal band, one more for leaving the tolerated band. */
  function BandPoints(x: real, normal: Band, tolerated: Band): (p: int)
    requires Nested(normal, tolerated)
    ensures 0 <= p <= 2
    ensures p == 0 <==> normal.Contains(x)
    ensures p == 2 <==> !tolerated.Contains(x)
  {
    (if x > normal.hi || x < normal.lo then 1 else 0)
    + (if x > tolerated.hi || x < tolerated.lo then 1 else 0)
  }

  /** The contribution of the oxygen level. */
  function OxygenPoints(o2: real): (p: int)
    ensures p == 0 || p == 1 || p == 3
    ensures p == 0 <==> o2 >= OxygenMild
    ensures p == 3 <==> o2 < OxygenSevere
  {
    (if o2 < OxygenMild then 1 else 0) + (if o2 < OxygenSevere then 2 else 0)
  }

  /** Every reading inside its normal band. */
  predicate AllNormal(v: Vitals)
  {
    && HeartRateNormal.Contains(v.heartRate)
    && BloodPressureNormal.Contains(v.bloodPressure)
    && TemperatureNormal.Contains(v.temperature)
    && v.oxygenLevel >= OxygenMild
  }

  /** The accumulated risk score. */
  function RiskScore(v: Vitals): (s: int)
    ensures 0 <= s <= 9
    ensures s == 0 <==> AllNormal(v)
  {
    BandPoints(v.heartRate, HeartRateNormal, HeartRateTolerated)
    + BandPoints(v.bloodPressure, BloodPressureNormal, BloodPressureTolerated)
    + BandPoints(v.temperature, TemperatureNormal, TemperatureTolerated)
    + OxygenPoints(v.oxygenLevel)
  }

  /** The mapping from score to class index. */
  function Classify(score: int): (risk: int)
    ensures 0 <= risk <= 2
  {
    if score >= 4 then 2
    else if score >= 2 then 1
    else 0
  }

  /** calculate_risk(hr, bp, temp, o2). */
  function CalculateRisk(hr: real, bp: real, temp: real, o2: real): (risk: int)
    ensures 0 <= risk <= 2
    ensures AllNormal(Vitals(hr, bp, temp, o2)) ==> risk == 0
  {
    Classify(RiskScore(Vitals(hr, bp, temp, o2)))
  }

  /** Each label corresponds to exactly one range of scores. */
  lemma ClassifyThresholds(score: int)
    ensures Classify(score) == 2 <==> score >= 4
    ensures Classify(score) == 1 <==> 2 <= score <= 3
    ensures Classify(score) == 0 <==> score <= 1
  {
  }

  /** A higher score never gives a lower label. */
  lemma ClassifyMonotone(s: int, t: int)
    requires s <= t
    ensures Classify(s) <= Classify(t)
  {
  }

  /** `y` lies at least as far outside `normal` as `x`, on the same side. */
  predicate MovesAway(normal: Band, x: real, y: real)
  {
    (normal.lo <= x <= y) || (y <= x <= normal.hi)
  }

  /** Moving a two-sided reading further from its normal band never lowers its contribution. */
  lemma BandPointsMonotone(x: real, y: real, normal: Band, tolerated: Band)
    requires Nested(normal, tolerated)
    requires MovesAway(normal, x, y)
    ensures BandPoints(x, normal, tolerated) <= BandPoints(y, normal, tolerated)
  {
  }

  /** A lower oxygen level never lowers its contribution. */
  lemma OxygenPointsAntitone(a: real, b: real)
    requires b <= a
    ensures OxygenPoints(a) <= OxygenPoints(b)
  {
  }

  /** Every reading of `w` lies at least as far outside its normal band as the one of `v`. */
  predicate Worse(v: Vitals, w: Vitals)
  {
    && MovesAway(HeartRateNormal, v.heartRate, w.heartRate)
    && MovesAway(BloodPressureNormal, v.bloodPressure, w.bloodPressure)
    && MovesAway(TemperatureNormal, v.temperature, w.temperature)
    && w.oxygenLevel <= v.oxygenLevel
  }

  /** Worse readings never give a lower score or a lower label. */
  lemma CalculateRiskMonotone(v: Vitals, w: Vitals)
    requires Worse(v, w)
    ensures RiskScore(v) <= RiskScore(w)
    ensures CalculateRisk(v.heartRate, v.bloodPressure, v.temperature, v.oxygenLevel)
         <= CalculateRisk(w.heartRate, w.bloodPressure, w.temperature, w.oxygenLevel)
  {
    BandPointsMonotone(v.heartRate, w.heartRate, HeartRateNormal, HeartRateTolerated);
    BandPointsMonotone(v.bloodPressure, w.bloodPressure, BloodPressureNormal, BloodPressureTolerated);
    BandPointsMonotone(v.temperature, w.temperature, TemperatureNormal, TemperatureTolerated);
    OxygenPointsAntitone(v.oxygenLevel, w.oxygenLevel);
    ClassifyMonotone(RiskScore(v), RiskScore(w));
  }

  /** The comparisons are strict: a reading exactly on a limit scores as inside it. */
  lemma ThresholdsAreStrict()
    ensures BandPoints(100.0, HeartRateNormal, HeartRateTolerated) == 0
    ensures BandPoints(60.0, HeartRateNormal, HeartRateTolerated) == 0
    ensures BandPoints(120.0, HeartRateNormal, HeartRateTolerated) == 1
    ensures BandPoints(50.0, HeartRateNormal, HeartRateTolerated) == 1
    ensures BandPoints(140.0, BloodPressureNormal, BloodPressureTolerated) == 0
    ensures BandPoints(160.0, BloodPressureNormal, BloodPressureTolerated) == 1
    ensures BandPoints(100.0, TemperatureNormal, TemperatureTolerated) == 0
    ensures BandPoints(102.0, TemperatureNormal, TemperatureTolerated) == 1
    ensures OxygenPoints(95.0) == 0
    ensures OxygenPoints(90.0) == 1
  {
  }

  /** Severe hypoxia with otherwise normal readings scores 3, hence Medium. */
  lemma SevereHypoxiaAloneIsMedium(v: Vitals)
    requires HeartRateNormal.Contains(v.heartRate)
    requires BloodPressureNormal.Contains(v.bloodPressure)
    requires TemperatureNormal.Contains(v.temperature)
    requires v.oxygenLevel < OxygenSevere
    ensures RiskScore(v) == 3
    ensures CalculateRisk(v.heartRate, v.bloodPressure, v.temperature, v.oxygenLevel) == 1
  {
  }

  /** The three sample patients of the training script, scored by the rule. */
  lemma SamplePatients()
    ensures RiskScore(Vitals(75.0, 120.0, 98.6, 98.0)) == 0
    ensures CalculateRisk(75.0, 120.0, 98.6, 98.0) == 0
    ensures RiskScore(Vitals(110.0, 150.0, 100.5, 92.0)) == 4
    ensures CalculateRisk(110.0, 150.0, 100.5, 92.0) == 2
    ensures RiskScore(Vitals(130.0, 170.0, 103.0, 88.0)) == 9
    ensures CalculateRisk(130.0, 170.0, 103.0, 88.0) == 2
  {
  }
}
