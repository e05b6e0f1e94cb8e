/** The four vital-sign readings shared by the offline labelling rule and the
    online scoring service, and the request fields that carry them. */
module VitalSigns {

  /** One request field per vital sign. */
  datatype VitalField = HeartRate | BloodPressure | Temperature | OxygenLevel

  /** The JSON key under which a field travels in a request and in the echoed input. */
  function Key(f: VitalField): string
  {
    match f
    case HeartRate => "heart_rate"
    case BloodPressure => "blood_pressure"
    case Temperature => "temperature"
    case OxygenLevel => "oxygen_level"
  }

  /** The fixed order in which the service lists, parses and range-checks the fields. */
  const RequiredFields: seq<VitalField> := [HeartRate, BloodPressure, Temperature, OxygenLevel]

  lemma EveryFieldRequired()
    ensures forall f :: f in RequiredFields
  {
    forall f ensures f in RequiredFields {
      assert RequiredFields[Position(f)] == f;
    }
  }

  /** The place of a field in that order. */
  function Position(f: VitalField): (i: nat)
    ensures i < |RequiredFields| && RequiredFields[i] == f
  {
    match f
    case HeartRate => 0
    case BloodPressure => 1
    case Temperature => 2
    case OxygenLevel => 3
  }

  /** A sequence of fields that respects the fixed order and repeats none. */
  predicate InRequiredOrder(fs: seq<VitalField>)
  {
    forall i, j :: 0 <= i < j < |fs| ==> Position(fs[i]) < Position(fs[j])
  }

  /** One reading of each vital sign, in the units the system uses:
      beats per minute, mmHg (systolic), degrees Fahrenheit, percent saturation. */
  datatype Vitals = Vitals(heartRate: real, bloodPressure: real, temperature: real, oxygenLevel: real)
  {
    function Get(f: VitalField): real
    {
      match f
      case HeartRate => heartRate
      case BloodPressure => bloodPressure
      case Temperature => temperature
      case OxygenLevel => oxygenLevel
    }
  }

  /** A closed interval [lo, hi] of readings. */
  datatype Band = Band(lo: real, hi: real)
  {
    predicate Contains(x: real)
    {
      lo <= x <= hi
    }
  }

  /** `inner` lies wholly inside `outer`. */
  predicate Nested(inner: Band, outer: Band)
  {
    outer.lo <= inner.lo && inner.hi <= outer.hi
  }
}
