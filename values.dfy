/// Dynamically typed values (Python's `Any`) that agents keep in beliefs,
/// message contents and intention parameters, plus the fitness bundle the
/// data source produces.
module Values {

  datatype Option<+T> = None | Some(value: T)

  /** One reading of the synthetic data source, before it is tagged with a user id. */
  datatype Reading = Reading(heartRate: seq<int>, steps: int, calories: int, sleepHours: real, activeMinutes: int)

  /** The ranges the data source draws from: ten heart-rate samples in [60, 150],
      steps in [5000, 15000], calories in [1500, 3000], sleep in [5.0, 9.0] hours,
      active minutes in [30, 120]. */
  ghost predicate InRange(r: Reading) {
    |r.heartRate| == 10
    && (forall i :: 0 <= i < |r.heartRate| ==> 60 <= r.heartRate[i] <= 150)
    && 5000 <= r.steps <= 15000
    && 1500 <= r.calories <= 3000
    && 5.0 <= r.sleepHours <= 9.0
    && 30 <= r.activeMinutes <= 120
  }

  /** The `fitness_data` mapping (its clock-derived `timestamp` entry is not modelled). */
  datatype FitnessData = FitnessData(userId: Value, heartRate: seq<int>, steps: int, calories: int,
                                     sleepHours: real, activeMinutes: int)

  /** A compiled fitness report (`report_id` and `timestamp` come from the clock and are not modelled). */
  datatype FitnessReport = FitnessReport(userId: Value, steps: int, heartRateAvg: real, calories: int,
                                         sleepHours: real, fitnessLevel: Value, recommendations: Value)

  datatype Value =
    | Text(s: string)
    | Int(n: int)
    | Real(r: real)
    | Bool(b: bool)
    | Ints(ns: seq<int>)
    | Texts(ts: seq<string>)
    | Data(data: FitnessData)
    | Report(report: FitnessReport)
    | Dict(entries: map<string, Value>)
    | Stamp   // a string derived from the clock (report ids, timestamps)

  /** Python truthiness of a value. */
  predicate Truthy(v: Value) {
    match v
    case Text(s) => s != ""
    case Int(n) => n != 0
    case Real(r) => r != 0.0
    case Bool(b) => b
    case Ints(ns) => ns != []
    case Texts(ts) => ts != []
    case Data(_) => true
    case Report(_) => true
    case Dict(m) => m != map[]
    case Stamp => true
  }

  function Sum(s: seq<int>): int {
    if s == [] then 0 else Sum(s[..|s| - 1]) + s[|s| - 1]
  }

  /** The exact average of a non-empty list (Python divides in floating point). */
  function Mean(s: seq<int>): real
    requires |s| > 0
  {
    Sum(s) as real / |s| as real
  }

  /** The bundle a value holds, if it is a fitness bundle with at least one heart-rate sample:
      the shape every reader of `fitness_data` in the source needs. */
  function BundleOf(v: Value): (r: Option<FitnessData>)
    ensures r.Some? ==> |r.value.heartRate| > 0 && v == Data(r.value)
    ensures v.Data? && |v.data.heartRate| > 0 ==> r.Some?
  {
    if v.Data? && |v.data.heartRate| > 0 then Some(v.data) else None
  }
}
