/** A fitness calculator: three kinds of workout share a base set of formulas
    (distance, mean speed) and each supplies its own calorie formula.
    Sensor readings arrive as a workout-type tag and a positional list of
    numbers; `ReadPackage` turns them into a `Training` record and
    `ShowTrainingInfo` summarises the record as an `InfoMessage`.

    Every quantity is a `real`, and the constants are exact rationals. */
module Homework {

  /** Metres in a kilometre (`Training.M_IN_KM`). */
  const MetersInKm: real := 1000.0
  /** Step length in metres of a run or a walk (`Training.LEN_STEP`). */
  const StepLength: real := 0.65
  /** Stroke length in metres of a swim (`Swimming.LEN_STEP`). */
  const StrokeLength: real := 1.38

  /** Running calorie coefficients. */
  const RunCoeff1: real := 18.0
  const RunCoeff2: real := 20.0
  /** Sports-walking calorie coefficients. */
  const WalkCoeff1: real := 0.035
  const WalkCoeff2: real := 0.029
  /** Swimming calorie coefficients. */
  const SwimCoeff1: real := 1.1
  const SwimCoeff2: real := 2.0
  /** Minutes in an hour. */
  const MinutesInHour: real := 60.0

  /** A workout record. The base class, whose calorie formula is missing,
      has no constructor here: every record is one of the three kinds. */
  datatype Training =
    | Running(action: real, duration: real, weight: real)
    | SportsWalking(action: real, duration: real, weight: real, height: real)
    | Swimming(action: real, duration: real, weight: real, lengthPool: real, countPool: real)

  /** The summary of one workout. */
  datatype InfoMessage = InfoMessage(
    trainingType: string,
    duration: real,
    distance: real,
    speed: real,
    calories: real)

  /** Why `ReadPackage` could not build a record. */
  datatype PackageError =
    | UnknownWorkoutType(workoutType: string)
    | WrongArity(expected: nat, given: nat)

  datatype Result<T> = Ok(value: T) | Err(error: PackageError)

  /** The records' class names, as the summary reports them; each kind has
      its own name. */
  function ClassName(t: Training): (r: string)
    ensures r == "Running" <==> t.Running?
    ensures r == "SportsWalking" <==> t.SportsWalking?
    ensures r == "Swimming" <==> t.Swimming?
  {
    match t
    case Running(_, _, _) => "Running"
    case SportsWalking(_, _, _, _) => "SportsWalking"
    case Swimming(_, _, _, _, _) => "Swimming"
  }

  /** Step (or stroke) length in metres of each kind of workout: positive,
      and the longer stroke length exactly for a swim. */
  function LenStep(t: Training): (r: real)
    ensures r > 0.0
    ensures r == StrokeLength <==> t.Swimming?
  {
    if t.Swimming? then StrokeLength else StepLength
  }

  /** No formula this workout needs divides by zero. */
  predicate Computable(t: Training)
  {
    t.duration != 0.0 && (t.SportsWalking? ==> t.height != 0.0)
  }

  /** Distance in km; Swimming reuses the base formula with its own stroke length.
      Dividing by the length in metres gives back the number of steps. */
  function Distance(t: Training): (r: real)
    ensures r * MetersInKm / LenStep(t) == t.action
  {
    t.action * LenStep(t) / MetersInKm
  }

  /** Mean speed in km/h. Running and walking divide the distance by the
      duration; swimming divides the pool distance instead and ignores the
      steps. Speed times duration is the distance covered. */
  function MeanSpeed(t: Training): (r: real)
    requires t.duration != 0.0
    ensures t.Swimming? ==> r * t.duration * MetersInKm == t.lengthPool * t.countPool
    ensures !t.Swimming? ==> r * t.duration == Distance(t)
  {
    match t
    case Swimming(_, duration, _, lengthPool, countPool) =>
      lengthPool * countPool / MetersInKm / duration
    case _ =>
      Distance(t) / t.duration
  }

  /** Mean speed by the base formula, whatever the kind of workout. */
  function BaseMeanSpeed(t: Training): (r: real)
    requires t.duration != 0.0
    ensures r * t.duration == Distance(t)
  {
    Distance(t) / t.duration
  }

  /** Calories spent, by each kind's own formula: for a run, in the closed
      form of `RunningCalories`; for a walk, a fixed part plus one step per
      unit of the floored speed term; for a swim, calories times duration is
      linear in the pool distance. */
  function Calories(t: Training): (r: real)
    requires Computable(t)
    ensures t.Running? ==>
      r == (RunCoeff1 * Distance(t) - RunCoeff2 * t.duration) * t.weight * 0.06
    ensures t.SportsWalking? ==>
      r == WalkCoeff1 * t.weight * t.duration * MinutesInHour
        + FlooredSpeedTerm(t) as real * (WalkCoeff2 * t.weight * t.duration * MinutesInHour)
    ensures t.Swimming? ==>
      r * t.duration == (t.lengthPool * t.countPool / MetersInKm + SwimCoeff1 * t.duration) * SwimCoeff2 * t.weight
  {
    match t
    case Running(_, _, _) => RunningCalories(t)
    case SportsWalking(_, _, _, _) => WalkingCalories(t)
    case Swimming(_, _, _, _, _) => SwimmingCalories(t)
  }

  /** `Running.get_spent_calories`, on the mean speed. Since speed times
      duration is the distance, the division by the duration cancels: the
      result is 18 times the distance less 20 times the hours, times the
      weight, times 60 / 1000. */
  function RunningCalories(t: Training): (r: real)
    requires t.Running? && t.duration != 0.0
    ensures r == (RunCoeff1 * Distance(t) - RunCoeff2 * t.duration) * t.weight * 0.06
  {
    var s := MeanSpeed(t);
    assert s * t.duration == Distance(t);
    (RunCoeff1 * s - RunCoeff2) * t.weight / MetersInKm * t.duration * MinutesInHour
  }

  /** `SportsWalking.get_spent_calories`, on the base mean speed; it floors
      the quotient of the squared speed by the height, as Python's `//` does. */
  /** The result is a fixed 0.035 * weight * duration * 60 plus
      0.029 * weight * duration * 60 for each unit of the floored term. */
  function WalkingCalories(t: Training): (r: real)
    requires t.SportsWalking? && t.duration != 0.0 && t.height != 0.0
    ensures r == WalkCoeff1 * t.weight * t.duration * MinutesInHour
      + FlooredSpeedTerm(t) as real * (WalkCoeff2 * t.weight * t.duration * MinutesInHour)
  {
    (WalkCoeff1 * t.weight + FlooredSpeedTerm(t) as real * WalkCoeff2 * t.weight)
      * t.duration * MinutesInHour
  }

  /** The walking formula's `mean_speed ** 2 / height`, before the floor. */
  function SpeedTerm(t: Training): real
    requires t.SportsWalking? && t.duration != 0.0 && t.height != 0.0
  {
    BaseMeanSpeed(t) * BaseMeanSpeed(t) / t.height
  }

  /** The walking formula's `mean_speed ** 2 // height`: the greatest
      integer not above `SpeedTerm`. */
  function FlooredSpeedTerm(t: Training): (r: int)
    requires t.SportsWalking? && t.duration != 0.0 && t.height != 0.0
    ensures (r as real) <= SpeedTerm(t) < ((r + 1) as real)
  {
    SpeedTerm(t).Floor
  }

  /** `Swimming.get_spent_calories`, on the pool-based mean speed. Times
      the duration, it is the pool distance in km plus 1.1 times the hours,
      times 2, times the weight. */
  function SwimmingCalories(t: Training): (r: real)
    requires t.Swimming? && t.duration != 0.0
    ensures r * t.duration == (t.lengthPool * t.countPool / MetersInKm + SwimCoeff1 * t.duration) * SwimCoeff2 * t.weight
  {
    var s := MeanSpeed(t);
    assert s * t.duration == t.lengthPool * t.countPool / MetersInKm;
    (s + SwimCoeff1) * SwimCoeff2 * t.weight
  }

  /** The summary of a record. For a run or a walk the reported distance is
      the reported speed times the reported duration; for a swim the speed
      times the duration is the pool distance. */
  function ShowTrainingInfo(t: Training): (r: InfoMessage)
    requires Computable(t)
    ensures r.trainingType == ClassName(t) && r.duration == t.duration
    ensures r.distance == Distance(t) && r.calories == Calories(t)
    ensures !t.Swimming? ==> r.distance == r.speed * r.duration
    ensures t.Swimming? ==> r.speed * r.duration * MetersInKm == t.lengthPool * t.countPool
  {
    InfoMessage(ClassName(t), t.duration, Distance(t), MeanSpeed(t), Calories(t))
  }

  /** The dispatch table: each known tag and the number of positional
      values its constructor takes. */
  const Arity: map<string, nat> := map["SWM" := 5, "RUN" := 3, "WLK" := 4]

  /** The tag that selects a record's kind: a key of the dispatch table whose
      arity is the number of the record's fields. */
  function WorkoutType(t: Training): (r: string)
    ensures r in Arity && Arity[r] == |Fields(t)|
  {
    match t
    case Swimming(_, _, _, _, _) => "SWM"
    case Running(_, _, _) => "RUN"
    case SportsWalking(_, _, _, _) => "WLK"
  }

  /** A record's fields in constructor positional order: the three common
      fields first, then the kind's own. */
  function Fields(t: Training): (r: seq<real>)
    ensures |r| >= 3 && r[0] == t.action && r[1] == t.duration && r[2] == t.weight
    ensures t.SportsWalking? ==> r[3..] == [t.height]
    ensures t.Swimming? ==> r[3..] == [t.lengthPool, t.countPool]
    ensures t.Running? ==> |r| == 3
  {
    match t
    case Running(a, d, w) => [a, d, w]
    case SportsWalking(a, d, w, h) => [a, d, w, h]
    case Swimming(a, d, w, l, c) => [a, d, w, l, c]
  }

  /** Builds the record a tag and a positional list of values select. An
      unknown tag and a list of the wrong length are errors; a record that
      is built has exactly that tag and those values. */
  function ReadPackage(workoutType: string, data: seq<real>): (r: Result<Training>)
    ensures workoutType !in Arity <==> r == Err(UnknownWorkoutType(workoutType))
    ensures workoutType in Arity ==>
      (|data| != Arity[workoutType] <==> r == Err(WrongArity(Arity[workoutType], |data|)))
    ensures workoutType in Arity && |data| == Arity[workoutType] ==> r.Ok?
    ensures r.Ok? ==> WorkoutType(r.value) == workoutType && Fields(r.value) == data
  {
    if workoutType !in Arity then Err(UnknownWorkoutType(workoutType))
    else if |data| != Arity[workoutType] then Err(WrongArity(Arity[workoutType], |data|))
    else if workoutType == "SWM" then Ok(Swimming(data[0], data[1], data[2], data[3], data[4]))
    else if workoutType == "RUN" then Ok(Running(data[0], data[1], data[2]))
    else Ok(SportsWalking(data[0], data[1], data[2], data[3]))
  }
}
