/**
 * A fitness-tracker calculator: raw sensor readings of three workout variants
 * turned into distance (km), mean speed (km/h) and spent calories (kcal).
 *
 * Python floats are modelled as exact `real`s; no rounding is modelled.
 */
module Homework {
  import opened Wrappers

  // ---------------------------------------------------------------------------
  // Unit-conversion constants and formula coefficients
  // ---------------------------------------------------------------------------

  /** Length of one step in metres (running and sports walking). */
  const StepLength: real := 0.65
  /** Metres per kilometre. */
  const MetersPerKm: real := 1000.0
  /** Minutes per hour. */
  const MinutesPerHour: real := 60.0

  /** Running: calories grow with 18 * speed, less 20. */
  const RunningSpeedFactor: real := 18.0
  const RunningSpeedShift: real := 20.0

  /** Sports walking: a weight term and a speed-squared-over-height term. */
  const WalkingWeightFactor: real := 0.035
  const WalkingSpeedFactor: real := 0.029

  /** Swimming: one stroke covers 1.38 m, overriding the step length. */
  const StrokeLength: real := 1.38
  const SwimmingSpeedShift: real := 1.1
  const SwimmingFactor: real := 2.0

  // ---------------------------------------------------------------------------
  // Data model
  // ---------------------------------------------------------------------------

  /**
   * One sensor reading: `action` is the number of steps (or strokes),
   * `duration` is in hours, `weight` in kg, `height` in cm, `lengthPool`
   * in metres and `countPool` the number of pool lengths swum.
   */
  datatype Workout =
    | Running(action: real, duration: real, weight: real)
    | SportsWalking(action: real, duration: real, weight: real, height: real)
    | Swimming(action: real, duration: real, weight: real, lengthPool: real, countPool: real)

  /** The summary of one workout. */
  datatype InfoMessage = InfoMessage(
    trainingType: string,
    duration: real,
    distance: real,
    speed: real,
    calories: real)

  /** The class name each variant reports as its training type. */
  function TrainingType(w: Workout): (name: string)
    ensures name == "Running" <==> w.Running?
    ensures name == "SportsWalking" <==> w.SportsWalking?
    ensures name == "Swimming" <==> w.Swimming?
  {
    match w
    case Running(_, _, _) => "Running"
    case SportsWalking(_, _, _, _) => "SportsWalking"
    case Swimming(_, _, _, _, _) => "Swimming"
  }

  /** The length covered per `action`: the class constant, overridden by swimming. */
  function LenStep(w: Workout): (len: real)
    ensures len > 0.0
    ensures len == StrokeLength <==> w.Swimming?
    ensures !w.Swimming? ==> len == StepLength
  {
    if w.Swimming? then StrokeLength else StepLength
  }

  /** The readings every formula of `w` can be evaluated on: no division by zero. */
  predicate Computable(w: Workout) {
    w.duration != 0.0 && (w.SportsWalking? ==> w.height != 0.0)
  }

  // ---------------------------------------------------------------------------
  // Calculations
  // ---------------------------------------------------------------------------

  /** Distance in km: the number of steps times the step length, in km. */
  function Distance(w: Workout): (r: real)
    ensures r * MetersPerKm / LenStep(w) == w.action
    ensures w.action >= 0.0 <==> r >= 0.0
  {
    w.action * LenStep(w) / MetersPerKm
  }

  /**
   * Mean speed in km/h: distance over duration, except for swimming, whose
   * speed is the pool length times the number of lengths, in km, over duration.
   */
  function MeanSpeed(w: Workout): (r: real)
    requires w.duration != 0.0
    ensures !w.Swimming? ==> r * w.duration == Distance(w)
    ensures w.Swimming? ==> r * w.duration * MetersPerKm == w.lengthPool * w.countPool
  {
    match w
    case Swimming(_, duration, _, lengthPool, countPool) =>
      lengthPool * countPool / MetersPerKm / duration
    case _ => Distance(w) / w.duration
  }

  /** Python's `x // y` on floats, over exact reals: the floor of the quotient. */
  function FloorDiv(x: real, y: real): (r: real)
    requires y != 0.0
    ensures r == r.Floor as real
    ensures r <= x / y < r + 1.0
  {
    (x / y).Floor as real
  }

  /** The sign of a product with a positive factor is the sign of the other factor. */
  lemma PositiveFactor(x: real, k: real)
    requires k > 0.0
    ensures x * k > 0.0 <==> x > 0.0
    ensures x * k == 0.0 <==> x == 0.0
  {
  }

  /**
   * Running calories from the mean speed (km/h), duration (h) and weight (kg):
   * for a positive weight and duration they are positive exactly above the
   * break-even speed of 20/18 km/h, and zero exactly at it.
   */
  function RunningCalories(speed: real, duration: real, weight: real): (r: real)
    ensures weight > 0.0 && duration > 0.0 ==>
      (r > 0.0 <==> speed > 20.0 / 18.0) && (r == 0.0 <==> speed == 20.0 / 18.0)
    ensures weight == 0.0 || duration == 0.0 ==> r == 0.0
  {
    var k := weight / MetersPerKm * duration * MinutesPerHour;
    assert (RunningSpeedFactor * speed - RunningSpeedShift) * weight
      / MetersPerKm * duration * MinutesPerHour == (RunningSpeedFactor * speed - RunningSpeedShift) * k;
    if weight > 0.0 && duration > 0.0 then
      PositiveFactor(RunningSpeedFactor * speed - RunningSpeedShift, k);
      (RunningSpeedFactor * speed - RunningSpeedShift) * weight
        / MetersPerKm * duration * MinutesPerHour
    else
      (RunningSpeedFactor * speed - RunningSpeedShift) * weight
        / MetersPerKm * duration * MinutesPerHour
  }

  /** The floored speed term of walking is never negative, and vanishes exactly when speed squared is below the height. */
  lemma WalkingFloorTermZero(speed: real, height: real)
    requires height > 0.0
    ensures FloorDiv(speed * speed, height) == 0.0 <==> speed * speed < height
    ensures FloorDiv(speed * speed, height) >= 0.0
  {
    var q := speed * speed / height;
    assert q >= 0.0;
    if speed * speed < height {
      assert q < 1.0;
    } else {
      assert q >= 1.0;
    }
  }

  /**
   * Sports-walking calories: a weight term plus the floored speed-squared-over-height
   * term. For non-negative readings they never fall below the weight term,
   * 0.035 * weight * duration * 60, and equal it exactly at speeds whose square is
   * below the height (for a positive weight and duration).
   */
  function WalkingCalories(speed: real, duration: real, weight: real, height: real): (r: real)
    requires height != 0.0
    ensures height > 0.0 && duration >= 0.0 && weight >= 0.0 ==> r >= 2.1 * weight * duration
    ensures height > 0.0 && speed * speed < height ==> r == 2.1 * weight * duration
    ensures height > 0.0 && duration > 0.0 && weight > 0.0 && speed * speed >= height ==>
      r > 2.1 * weight * duration
  {
    var f := FloorDiv(speed * speed, height);
    var extra := f * WalkingSpeedFactor * weight;
    assert (WalkingWeightFactor * weight + extra) * duration * MinutesPerHour
      == 2.1 * weight * duration + extra * duration * 60.0;
    if height > 0.0 then
      WalkingFloorTermZero(speed, height);
      assert weight >= 0.0 ==> extra >= 0.0;
      assert duration >= 0.0 && weight >= 0.0 ==> extra * duration * 60.0 >= 0.0;
      assert duration > 0.0 && weight > 0.0 && speed * speed >= height ==>
        extra > 0.0 && extra * duration * 60.0 > 0.0;
      (WalkingWeightFactor * weight + extra) * duration * MinutesPerHour
    else
      (WalkingWeightFactor * weight + extra) * duration * MinutesPerHour
  }

  /**
   * The walking formula at a floor term of `n`: each whole unit of
   * speed squared over height adds 0.029 * 60 = 1.74 kcal per kg and hour
   * to the base 0.035 * 60 = 2.1.
   */
  lemma WalkingCaloriesAtFloor(speed: real, duration: real, weight: real, height: real, n: int)
    requires height != 0.0
    requires n as real <= speed * speed / height < n as real + 1.0
    ensures WalkingCalories(speed, duration, weight, height) == (2.1 + 1.74 * n as real) * weight * duration
  {
    var q := speed * speed / height;
    assert q.Floor == n;
    var f := FloorDiv(speed * speed, height);
    assert f == n as real;
    var x := n as real;
    calc {
      WalkingCalories(speed, duration, weight, height);
      (0.035 * weight + f * 0.029 * weight) * duration * 60.0;
      { assert f == x; }
      (0.035 * weight + x * 0.029 * weight) * duration * 60.0;
      (2.1 + 1.74 * x) * weight * duration;
    }
  }

  /**
   * Swimming calories from the mean speed (km/h) and weight (kg): even at rest
   * a swimmer burns 2.2 kcal per kg.
   */
  function SwimmingCalories(speed: real, weight: real): (r: real)
    ensures speed >= 0.0 && weight >= 0.0 ==> r >= 2.2 * weight
    ensures speed == 0.0 ==> r == 2.2 * weight
  {
    (speed + SwimmingSpeedShift) * SwimmingFactor * weight
  }

  /**
   * Spent calories, by the formula of the variant, at the variant's mean speed.
   * No weight burns nothing; walking and swimming always burn some for positive
   * readings, while running burns none below its break-even speed.
   */
  function Calories(w: Workout): (r: real)
    requires Computable(w)
    ensures w.weight == 0.0 ==> r == 0.0
    ensures w.SportsWalking? && w.weight > 0.0 && w.duration > 0.0 && w.height > 0.0 ==> r > 0.0
    ensures w.Swimming? && w.weight > 0.0 && w.duration > 0.0 && w.lengthPool * w.countPool >= 0.0 ==>
      r > 0.0
    ensures w.Running? && w.weight > 0.0 && w.duration > 0.0 ==>
      (r > 0.0 <==> MeanSpeed(w) > 20.0 / 18.0)
  {
    match w
    case Running(_, duration, weight) => RunningCalories(MeanSpeed(w), duration, weight)
    case SportsWalking(_, duration, weight, height) =>
      WalkingCalories(MeanSpeed(w), duration, weight, height)
    case Swimming(_, _, weight, _, _) => SwimmingCalories(MeanSpeed(w), weight)
  }

  /** The summary of a workout: its type, its duration and the three computed values. */
  function ShowTrainingInfo(w: Workout): (m: InfoMessage)
    requires Computable(w)
    ensures m.trainingType == TrainingType(w) && m.duration == w.duration
    ensures m.distance == Distance(w) && m.speed == MeanSpeed(w) && m.calories == Calories(w)
    ensures !w.Swimming? ==> m.speed * m.duration == m.distance
  {
    InfoMessage(TrainingType(w), w.duration, Distance(w), MeanSpeed(w), Calories(w))
  }

  // ---------------------------------------------------------------------------
  // Reading a sensor package
  // ---------------------------------------------------------------------------

  /** The variant a dispatch-table entry constructs. */
  datatype Kind = SwimmingKind | RunningKind | WalkingKind

  /** The dispatch table from a three-letter code to a variant. */
  function TrainingTypes(): (table: map<string, Kind>)
    ensures table.Keys == {"SWM", "RUN", "WLK"}
    ensures forall c1, c2 :: c1 in table && c2 in table && table[c1] == table[c2] ==> c1 == c2
  {
    map["SWM" := SwimmingKind, "RUN" := RunningKind, "WLK" := WalkingKind]
  }

  /** The number of fields of each variant's constructor. */
  function Arity(k: Kind): (n: nat)
    ensures 3 <= n <= 5
  {
    match k
    case SwimmingKind => 5
    case RunningKind => 3
    case WalkingKind => 4
  }

  /** The variant a workout is. */
  function KindOf(w: Workout): (k: Kind)
    ensures k == RunningKind <==> w.Running?
    ensures k == WalkingKind <==> w.SportsWalking?
    ensures k == SwimmingKind <==> w.Swimming?
  {
    match w
    case Running(_, _, _) => RunningKind
    case SportsWalking(_, _, _, _) => WalkingKind
    case Swimming(_, _, _, _, _) => SwimmingKind
  }

  /** The code under which the dispatch table lists a workout's variant. */
  function Code(w: Workout): (code: string)
    ensures code in TrainingTypes() && TrainingTypes()[code] == KindOf(w)
  {
    match w
    case Running(_, _, _) => "RUN"
    case SportsWalking(_, _, _, _) => "WLK"
    case Swimming(_, _, _, _, _) => "SWM"
  }

  /** A workout's fields in constructor order. */
  function Fields(w: Workout): (data: seq<real>)
    ensures |data| == Arity(KindOf(w))
    ensures data[0] == w.action && data[1] == w.duration && data[2] == w.weight
  {
    match w
    case Running(action, duration, weight) => [action, duration, weight]
    case SportsWalking(action, duration, weight, height) => [action, duration, weight, height]
    case Swimming(action, duration, weight, lengthPool, countPool) =>
      [action, duration, weight, lengthPool, countPool]
  }

  /**
   * A variant's constructor called with `data` as positional arguments; it
   * fails unless there are exactly as many values as fields.
   */
  function Construct(k: Kind, data: seq<real>): (r: Option<Workout>)
    ensures r.Some? <==> |data| == Arity(k)
    ensures r.Some? ==> KindOf(r.value) == k && Fields(r.value) == data
  {
    if |data| != Arity(k) then None
    else match k
      case SwimmingKind => Some(Swimming(data[0], data[1], data[2], data[3], data[4]))
      case RunningKind => Some(Running(data[0], data[1], data[2]))
      case WalkingKind => Some(SportsWalking(data[0], data[1], data[2], data[3]))
  }

  /**
   * Looks the code up in the dispatch table and constructs the variant from
   * `data`; `None` where the source raises (unknown code or wrong arity).
   */
  function ReadPackage(code: string, data: seq<real>): (r: Option<Workout>)
    ensures r.Some? <==> code in TrainingTypes() && |data| == Arity(TrainingTypes()[code])
    ensures r.Some? ==> Code(r.value) == code && Fields(r.value) == data
  {
    if code in TrainingTypes() then Construct(TrainingTypes()[code], data) else None
  }
}
