/**
  The calculation layer of the fitness tracker: one datatype constructor per
  training class (the base class `Training` and its subclasses `Running`,
  `SportsWalking` and `Swimming`), the getters for distance, mean speed and
  spent calories, the summary record `InfoMessage` built by
  `show_training_info`, and the activity-code dispatch of `read_package`.

  Numbers are exact reals. Python raises ZeroDivisionError when a divisor is
  zero; here each getter requires its divisors to be non-zero, and the total
  entry point `ShowTrainingInfo` turns that case into `Failure(ZeroDivision)`.
*/
module Homework {
  import opened Wrappers

  /** Metres in a kilometre (`Training.M_IN_KM`). */
  const M_IN_KM: real := 1000.0
  /** Minutes in an hour (`Training.MIN_IN_HOUR`). */
  const MIN_IN_HOUR: real := 60.0
  /** Length of one step in metres (`Training.LEN_STEP`, inherited by Running and SportsWalking). */
  const LEN_STEP: real := 0.65
  /** Length of one stroke in metres (`Swimming.LEN_STEP`). */
  const SWIM_LEN_STEP: real := 1.38

  /** Running calorie coefficients. */
  const RUN_SPEED_MULTIPLIER: real := 18.0
  const RUN_SPEED_SHIFT: real := 20.0
  /** Sports-walking calorie coefficients. */
  const WALK_WEIGHT_MULTIPLIER: real := 0.035
  const WALK_SPEED_HEIGHT_MULTIPLIER: real := 0.029
  /** Swimming calorie coefficients. */
  const SWIM_SPEED_SHIFT: real := 1.1
  const SWIM_WEIGHT_MULTIPLIER: real := 2.0

  /** The summary record; only its fields are modelled, not the text it renders. */
  datatype InfoMessage = InfoMessage(
    trainingType: string,
    duration: real,
    distance: real,
    speed: real,
    calories: real)

  /**
    One training session. `action` counts steps or strokes, `duration` is in
    hours, `weight` in kilograms, `height` in centimetres, `lengthPool` in
    metres and `countPool` in laps. `Base` is an instance of the base class.
  */
  datatype Training =
    | Base(action: real, duration: real, weight: real)
    | Running(action: real, duration: real, weight: real)
    | SportsWalking(action: real, duration: real, weight: real, height: real)
    | Swimming(action: real, duration: real, weight: real, lengthPool: real, countPool: real)

  /** The exceptions the layer can raise. */
  datatype Error =
    | UnsupportedActivity(code: string)            // unknown activity code
    | WrongArgumentCount(expected: nat, given: nat) // constructor called with the wrong number of values
    | ZeroDivision                                  // a zero duration or height used as a divisor

  /** The class name reported as `training_type`. */
  function ClassName(t: Training): (name: string)
    ensures name in {"Training", "Running", "SportsWalking", "Swimming"}
    ensures name == "Training" <==> t.Base?
    ensures name == "Running" <==> t.Running?
    ensures name == "SportsWalking" <==> t.SportsWalking?
    ensures name == "Swimming" <==> t.Swimming?
  {
    match t
    case Base(_, _, _) => "Training"
    case Running(_, _, _) => "Running"
    case SportsWalking(_, _, _, _) => "SportsWalking"
    case Swimming(_, _, _, _, _) => "Swimming"
  }

  /** Two sessions are built by the same class. */
  predicate SameClass(t: Training, u: Training)
  {
    && (t.Base? <==> u.Base?)
    && (t.Running? <==> u.Running?)
    && (t.SportsWalking? <==> u.SportsWalking?)
    && (t.Swimming? <==> u.Swimming?)
  }

  /** The class names are distinct: the label identifies the class. */
  lemma ClassNameIdentifiesClass(t: Training, u: Training)
    ensures ClassName(t) == ClassName(u) <==> SameClass(t, u)
  {
  }

  /** The `LEN_STEP` class attribute seen by each instance. */
  function LenStep(t: Training): (metres: real)
  {
    if t.Swimming? then SWIM_LEN_STEP else LEN_STEP
  }

  /** `get_distance`: kilometres covered, from the step or stroke count. */
  function Distance(t: Training): (km: real)
    ensures t.Swimming? ==> km == 0.00138 * t.action
    ensures !t.Swimming? ==> km == 0.00065 * t.action
  {
    LenStep(t) * t.action / M_IN_KM
  }

  /** The step or stroke count is recovered from the distance: metres divided by the step length. */
  lemma StepsFromDistance(t: Training)
    ensures Distance(t) * M_IN_KM / LenStep(t) == t.action
  {
    assert Distance(t) * M_IN_KM == LenStep(t) * t.action;
  }

  /**
    `get_mean_speed`: kilometres per hour; a zero duration raises ZeroDivisionError.
    Speed is distance per hour: for the classes that inherit the default this is
    the step distance, and swimming's overriding speed covers the pool laps.
  */
  function MeanSpeed(t: Training): (kmh: real)
    requires t.duration != 0.0
    ensures !t.Swimming? ==> kmh * t.duration == Distance(t)
    ensures t.Swimming? ==> kmh * t.duration * M_IN_KM == t.lengthPool * t.countPool
  {
    match t
    case Swimming(_, duration, _, lengthPool, countPool) =>
      lengthPool * countPool / M_IN_KM / duration
    case _ =>
      Distance(t) / t.duration
  }

  /** Python's `x // y` on floats: the floor of the quotient, as a real. */
  function FloorDiv(x: real, y: real): (q: real)
    requires y != 0.0
    ensures q.Floor as real == q
    ensures q <= x / y < q + 1.0
  {
    (x / y).Floor as real
  }

  /** For a non-negative dividend and a positive divisor, `x // y` is 0 exactly when `x < y`. */
  lemma FloorDivZero(x: real, y: real)
    requires x >= 0.0 && y > 0.0
    ensures FloorDiv(x, y) == 0.0 <==> x < y
  {
    var q := x / y;
    assert q * y == x;
    assert q >= 0.0;
    assert q < 1.0 <==> x < y;
    if x < y {
      assert q.Floor == 0;
    }
  }

  /** The divisors `get_spent_calories` uses are non-zero. */
  predicate CaloriesDefined(t: Training)
  {
    match t
    case Base(_, _, _) => true
    case SportsWalking(_, duration, _, height) => duration != 0.0 && height != 0.0
    case _ => t.duration != 0.0
  }

  /**
    `Running.get_spent_calories` for a given mean speed. For a positive weight
    and duration the runner burns energy exactly when 18 times the speed exceeds 20.
  */
  function RunningCalories(weight: real, duration: real, speed: real): (kcal: real)
    ensures weight > 0.0 && duration > 0.0 ==>
      (kcal > 0.0 <==> RUN_SPEED_MULTIPLIER * speed > RUN_SPEED_SHIFT)
  {
    (RUN_SPEED_MULTIPLIER * speed - RUN_SPEED_SHIFT) * weight / M_IN_KM * (duration * MIN_IN_HOUR)
  }

  /**
    `SportsWalking.get_spent_calories` for a given mean speed; `speed ** 2 // height`
    is floored. With a positive height the floor term is non-negative, so the
    formula never drops below its weight term.
  */
  function WalkingCalories(weight: real, duration: real, speed: real, height: real): (kcal: real)
    requires height != 0.0
    ensures height > 0.0 && weight >= 0.0 && duration >= 0.0 ==>
      kcal >= WALK_WEIGHT_MULTIPLIER * weight * duration * MIN_IN_HOUR
  {
    (WALK_WEIGHT_MULTIPLIER * weight
      + FloorDiv(speed * speed, height) * WALK_SPEED_HEIGHT_MULTIPLIER * weight)
      * (duration * MIN_IN_HOUR)
  }

  /**
    `Swimming.get_spent_calories` for a given mean speed. A swimmer of positive
    weight burns more than the resting 2.2 kcal per kilogram exactly when moving.
  */
  function SwimmingCalories(weight: real, speed: real): (kcal: real)
    ensures weight > 0.0 ==>
      (kcal > SWIM_SPEED_SHIFT * SWIM_WEIGHT_MULTIPLIER * weight <==> speed > 0.0)
  {
    (speed + SWIM_SPEED_SHIFT) * SWIM_WEIGHT_MULTIPLIER * weight
  }

  /**
    `get_spent_calories`, dispatched on the class; every override feeds the
    class's own `get_mean_speed` into its formula, and the base class burns nothing.
  */
  function SpentCalories(t: Training): (kcal: real)
    requires CaloriesDefined(t)
    ensures t.Base? ==> kcal == 0.0
  {
    match t
    case Base(_, _, _) => 0.0
    case Running(_, duration, weight) => RunningCalories(weight, duration, MeanSpeed(t))
    case SportsWalking(_, duration, weight, height) =>
      WalkingCalories(weight, duration, MeanSpeed(t), height)
    case Swimming(_, _, weight, _, _) => SwimmingCalories(weight, MeanSpeed(t))
  }

  /** Every divisor `show_training_info` reaches is non-zero. */
  predicate InfoDefined(t: Training)
  {
    t.duration != 0.0 && CaloriesDefined(t)
  }

  /**
    `show_training_info`: the class name, the duration and the three getters,
    or ZeroDivision when one of them would divide by zero.
  */
  function ShowTrainingInfo(t: Training): (r: Result<InfoMessage, Error>)
    ensures r.Success? <==> t.duration != 0.0 && (t.SportsWalking? ==> t.height != 0.0)
    ensures r.Failure? ==> r.error == ZeroDivision
    ensures r.Success? ==>
      && r.value.trainingType == ClassName(t)
      && r.value.duration == t.duration
      && r.value.distance == Distance(t)
      && r.value.speed == MeanSpeed(t)
      && r.value.calories == SpentCalories(t)
  {
    if !InfoDefined(t) then Failure(ZeroDivision)
    else Success(InfoMessage(ClassName(t), t.duration, Distance(t), MeanSpeed(t), SpentCalories(t)))
  }

  // ---------------------------------------------------------------------------
  // Properties of the formulas
  // ---------------------------------------------------------------------------

  /** The running formula at the default speed depends on distance and duration alone. */
  lemma RunningCaloriesClosedForm(weight: real, duration: real, distance: real)
    requires duration != 0.0
    ensures RunningCalories(weight, duration, distance / duration)
      == 0.06 * weight * (18.0 * distance - 20.0 * duration)
  {
    var v := distance / duration;
    assert v * duration == distance;
    calc {
      RunningCalories(weight, duration, v);
      (18.0 * v - 20.0) * weight / 1000.0 * (duration * 60.0);
      0.06 * weight * (18.0 * (v * duration) - 20.0 * duration);
    }
  }

  /** Running calories are 0.06 kcal per kilogram times (18 km per step-kilometre less 20 per hour). */
  lemma RunningCaloriesFromDistance(t: Training)
    requires t.Running? && t.duration != 0.0
    ensures SpentCalories(t) == 0.06 * t.weight * (18.0 * Distance(t) - 20.0 * t.duration)
  {
    RunningCaloriesClosedForm(t.weight, t.duration, Distance(t));
  }

  /**
    For a runner of positive weight over a positive duration, calories are
    positive exactly when 18 times the mean speed exceeds 20.
  */
  lemma RunningCaloriesPositive(t: Training)
    requires t.Running? && t.duration > 0.0 && t.weight > 0.0
    ensures SpentCalories(t) > 0.0 <==> RUN_SPEED_MULTIPLIER * MeanSpeed(t) > RUN_SPEED_SHIFT
  {
    var v := MeanSpeed(t);
    var k := t.weight / M_IN_KM * (t.duration * MIN_IN_HOUR);
    assert k > 0.0;
    assert RunningCalories(t.weight, t.duration, v) == (18.0 * v - 20.0) * k;
  }

  /**
    With a positive height, the walking floor term vanishes exactly when the
    squared speed is below the height, leaving only the weight term.
  */
  lemma WalkingCaloriesSlow(weight: real, duration: real, speed: real, height: real)
    requires height > 0.0
    ensures FloorDiv(speed * speed, height) == 0.0 <==> speed * speed < height
    ensures speed * speed < height ==>
      WalkingCalories(weight, duration, speed, height)
        == WALK_WEIGHT_MULTIPLIER * weight * duration * MIN_IN_HOUR
  {
    assert speed * speed >= 0.0;
    FloorDivZero(speed * speed, height);
  }

  /** A walk whose squared speed is below the height burns 0.035 kcal per kilogram and minute. */
  lemma WalkingSlowCalories(t: Training)
    requires t.SportsWalking? && t.duration != 0.0 && t.height > 0.0
    requires MeanSpeed(t) * MeanSpeed(t) < t.height
    ensures SpentCalories(t) == WALK_WEIGHT_MULTIPLIER * t.weight * t.duration * MIN_IN_HOUR
  {
    WalkingCaloriesSlow(t.weight, t.duration, MeanSpeed(t), t.height);
  }

  /** A walk of non-negative weight and positive duration burns at least its weight term. */
  lemma WalkingCaloriesAtLeastBaseline(t: Training)
    requires t.SportsWalking? && t.duration > 0.0 && t.height > 0.0 && t.weight >= 0.0
    ensures SpentCalories(t) >= WALK_WEIGHT_MULTIPLIER * t.weight * t.duration * MIN_IN_HOUR
  {
    assert SpentCalories(t) == WalkingCalories(t.weight, t.duration, MeanSpeed(t), t.height);
  }

  /**
    Swimming speed and calories come from the pool geometry: two swims that
    differ only in their stroke count differ in distance and nothing else.
  */
  lemma SwimmingIgnoresAction(t: Training, u: Training)
    requires t.Swimming? && u.Swimming? && t.duration != 0.0
    requires u.duration == t.duration && u.weight == t.weight
    requires u.lengthPool == t.lengthPool && u.countPool == t.countPool
    ensures MeanSpeed(u) == MeanSpeed(t)
    ensures SpentCalories(u) == SpentCalories(t)
    ensures Distance(u) == Distance(t) <==> u.action == t.action
  {
  }

  /**
    Swimming keeps the inherited stroke-based distance but overrides the speed,
    so speed times duration is the distance only when the strokes and the laps
    cover the same metres.
  */
  lemma SwimmingSpeedDistanceAgree(t: Training)
    requires t.Swimming? && t.duration != 0.0
    ensures MeanSpeed(t) * t.duration == Distance(t)
      <==> SWIM_LEN_STEP * t.action == t.lengthPool * t.countPool
  {
    var v := MeanSpeed(t);
    assert v * t.duration * M_IN_KM == t.lengthPool * t.countPool;
    assert Distance(t) * M_IN_KM == SWIM_LEN_STEP * t.action;
  }

  /**
    More laps in the same pool and time mean more swimming calories for a
    swimmer of positive weight.
  */
  lemma SwimmingCaloriesGrowWithLaps(t: Training, u: Training)
    requires t.Swimming? && u.Swimming? && t.duration > 0.0 && t.weight > 0.0 && t.lengthPool > 0.0
    requires u.duration == t.duration && u.weight == t.weight && u.lengthPool == t.lengthPool
    requires u.countPool > t.countPool
    ensures MeanSpeed(u) > MeanSpeed(t)
    ensures SpentCalories(u) > SpentCalories(t)
  {
    var k := t.lengthPool / M_IN_KM / t.duration;
    assert k > 0.0;
    assert MeanSpeed(t) == t.countPool * k;
    assert MeanSpeed(u) == u.countPool * k;
    assert MeanSpeed(u) - MeanSpeed(t) == (u.countPool - t.countPool) * k;
    assert SpentCalories(u) - SpentCalories(t)
      == (MeanSpeed(u) - MeanSpeed(t)) * SWIM_WEIGHT_MULTIPLIER * t.weight;
  }

  // ---------------------------------------------------------------------------
  // read_package
  // ---------------------------------------------------------------------------

  /** The classes `read_package` can construct. */
  datatype TrainingClass = SwimmingClass | RunningClass | SportsWalkingClass

  /** The `training_code` dictionary of `read_package`. */
  const TRAINING_CODE: map<string, TrainingClass> :=
    map["SWM" := SwimmingClass, "RUN" := RunningClass, "WLK" := SportsWalkingClass]

  /** Number of positional parameters of each class's constructor. */
  function Arity(c: TrainingClass): (n: nat)
  {
    match c
    case SwimmingClass => 5
    case RunningClass => 3
    case SportsWalkingClass => 4
  }

  /** The class that built a session. */
  function ClassOf(t: Training): (c: TrainingClass)
    requires !t.Base?
  {
    match t
    case Running(_, _, _) => RunningClass
    case SportsWalking(_, _, _, _) => SportsWalkingClass
    case Swimming(_, _, _, _, _) => SwimmingClass
  }

  /** The activity code under which a class is registered. */
  function Code(t: Training): (code: string)
    requires !t.Base?
  {
    match t
    case Running(_, _, _) => "RUN"
    case SportsWalking(_, _, _, _) => "WLK"
    case Swimming(_, _, _, _, _) => "SWM"
  }

  /** The constructor arguments of a session, in positional order. */
  function Fields(t: Training): (data: seq<real>)
  {
    match t
    case Base(action, duration, weight) => [action, duration, weight]
    case Running(action, duration, weight) => [action, duration, weight]
    case SportsWalking(action, duration, weight, height) => [action, duration, weight, height]
    case Swimming(action, duration, weight, lengthPool, countPool) =>
      [action, duration, weight, lengthPool, countPool]
  }

  /** `cls(*data)`: call a constructor with positional values. */
  function Construct(c: TrainingClass, data: seq<real>): (r: Result<Training, Error>)
    ensures r.Success? <==> |data| == Arity(c)
    ensures r.Failure? ==> r.error == WrongArgumentCount(Arity(c), |data|)
    ensures r.Success? ==> !r.value.Base? && ClassOf(r.value) == c && Fields(r.value) == data
  {
    if |data| != Arity(c) then Failure(WrongArgumentCount(Arity(c), |data|))
    else
      match c
      case SwimmingClass => Success(Swimming(data[0], data[1], data[2], data[3], data[4]))
      case RunningClass => Success(Running(data[0], data[1], data[2]))
      case SportsWalkingClass => Success(SportsWalking(data[0], data[1], data[2], data[3]))
  }

  /**
    `read_package`: look the code up and forward the values positionally. An
    unknown code yields no training (`read_package` prints a warning and then fails
    on the unbound result); a list of the wrong length fails in the constructor.
  */
  function ReadPackage(workoutType: string, data: seq<real>): (r: Result<Training, Error>)
    ensures r.Success? <==>
      workoutType in TRAINING_CODE && |data| == Arity(TRAINING_CODE[workoutType])
    ensures workoutType !in TRAINING_CODE ==> r == Failure(UnsupportedActivity(workoutType))
    ensures workoutType in TRAINING_CODE && r.Failure? ==>
      r.error == WrongArgumentCount(Arity(TRAINING_CODE[workoutType]), |data|)
    ensures r.Success? ==> !r.value.Base? && Code(r.value) == workoutType && Fields(r.value) == data
  {
    if workoutType !in TRAINING_CODE then Failure(UnsupportedActivity(workoutType))
    else Construct(TRAINING_CODE[workoutType], data)
  }

  /** Every session `read_package` can build is rebuilt from its code and its fields. */
  lemma ReadPackageRoundTrip(t: Training)
    requires !t.Base?
    ensures ReadPackage(Code(t), Fields(t)) == Success(t)
  {
  }

  /**
    What the driver does with a package: `read_package` picks the class named
    by the code, and its summary carries that class's name and the forwarded
    duration, or fails on a zero duration or (walking) a zero height.
  */
  lemma ReadPackageSummary(workoutType: string, data: seq<real>)
    requires ReadPackage(workoutType, data).Success?
    ensures |data| >= 3
    ensures ClassName(ReadPackage(workoutType, data).value)
      == if workoutType == "SWM" then "Swimming"
         else if workoutType == "RUN" then "Running"
         else "SportsWalking"
    ensures ShowTrainingInfo(ReadPackage(workoutType, data).value).Success?
      <==> data[1] != 0.0 && (workoutType == "WLK" ==> data[3] != 0.0)
    ensures ShowTrainingInfo(ReadPackage(workoutType, data).value).Success? ==>
      ShowTrainingInfo(ReadPackage(workoutType, data).value).value.duration == data[1]
  {
    var t := ReadPackage(workoutType, data).value;
    assert Fields(t) == data;
  }
}
