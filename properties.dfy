/**
 * Properties of the calculator: the inherited and overridden formulas,
 * closed forms of the calorie formulas over the raw readings, and the
 * dispatch of sensor packages.
 */
module HomeworkProperties {
  import opened Wrappers
  import opened Homework

  // ---------------------------------------------------------------------------
  // Distance and speed
  // ---------------------------------------------------------------------------

  /**
   * Running and sports walking inherit the base distance and speed; swimming
   * overrides the step length, so the same count covers 1.38 / 0.65 as much.
   */
  lemma InheritedDistanceAndSpeed(action: real, duration: real, weight: real, height: real,
                                  lengthPool: real, countPool: real)
    requires duration != 0.0
    ensures Distance(Running(action, duration, weight))
         == Distance(SportsWalking(action, duration, weight, height))
         == action * 0.65 / 1000.0
    ensures MeanSpeed(Running(action, duration, weight))
         == MeanSpeed(SportsWalking(action, duration, weight, height))
    ensures Distance(Swimming(action, duration, weight, lengthPool, countPool)) * 0.65
         == Distance(Running(action, duration, weight)) * 1.38
  {
  }

  /** Swimming speed depends on the pool and the duration, never on the stroke count. */
  lemma SwimmingSpeedIgnoresAction(action1: real, action2: real, duration: real, weight: real,
                                    lengthPool: real, countPool: real)
    requires duration != 0.0
    ensures MeanSpeed(Swimming(action1, duration, weight, lengthPool, countPool))
         == MeanSpeed(Swimming(action2, duration, weight, lengthPool, countPool))
         == lengthPool * countPool / (1000.0 * duration)
  {
  }

  // ---------------------------------------------------------------------------
  // Calories
  // ---------------------------------------------------------------------------

  /** Running calories over the raw readings: the duration in the speed cancels. */
  lemma RunningCaloriesClosedForm(action: real, duration: real, weight: real)
    requires duration != 0.0
    ensures Calories(Running(action, duration, weight))
         == 0.06 * weight * (0.0117 * action - 20.0 * duration)
  {
  }

  /**
   * A walking workout burns at least 2.1 * weight * duration, exactly that when its
   * mean speed squared is below its height, and more than that otherwise.
   */
  lemma WalkingCaloriesLowerBound(w: Workout)
    requires w.SportsWalking? && w.height > 0.0 && w.duration > 0.0 && w.weight >= 0.0
    ensures Calories(w) >= 2.1 * w.weight * w.duration
    ensures MeanSpeed(w) * MeanSpeed(w) < w.height ==> Calories(w) == 2.1 * w.weight * w.duration
    ensures w.weight > 0.0 && MeanSpeed(w) * MeanSpeed(w) >= w.height ==>
      Calories(w) > 2.1 * w.weight * w.duration
  {
  }

  /** Swimming calories over the raw readings: 2 * weight * (pool km per hour + 1.1). */
  lemma SwimmingCaloriesClosedForm(action: real, duration: real, weight: real,
                                   lengthPool: real, countPool: real)
    requires duration != 0.0
    ensures Calories(Swimming(action, duration, weight, lengthPool, countPool))
         == 2.0 * weight * (lengthPool * countPool / (1000.0 * duration)) + 2.2 * weight
  {
    SwimmingSpeedIgnoresAction(action, action, duration, weight, lengthPool, countPool);
  }

  /** Every calorie formula is proportional to the weight. */
  lemma CaloriesScaleWithWeight(speed: real, duration: real, weight: real, height: real, factor: real)
    requires height != 0.0
    ensures RunningCalories(speed, duration, factor * weight)
         == factor * RunningCalories(speed, duration, weight)
    ensures WalkingCalories(speed, duration, factor * weight, height)
         == factor * WalkingCalories(speed, duration, weight, height)
    ensures SwimmingCalories(speed, factor * weight) == factor * SwimmingCalories(speed, weight)
  {
    var r := (18.0 * speed - 20.0) / 1000.0 * duration * 60.0;
    assert RunningCalories(speed, duration, weight) == r * weight;
    assert RunningCalories(speed, duration, factor * weight) == r * (factor * weight);
    var f := FloorDiv(speed * speed, height);
    var c := (0.035 + f * 0.029) * duration * 60.0;
    assert WalkingCalories(speed, duration, weight, height) == c * weight;
    assert WalkingCalories(speed, duration, factor * weight, height) == c * (factor * weight);
  }

  // ---------------------------------------------------------------------------
  // Summary
  // ---------------------------------------------------------------------------

  /** The training type of a summary names the variant, so distinct variants never share one. */
  lemma TrainingTypeIdentifiesVariant(w1: Workout, w2: Workout)
    requires Computable(w1) && Computable(w2)
    ensures ShowTrainingInfo(w1).trainingType == ShowTrainingInfo(w2).trainingType
        <==> KindOf(w1) == KindOf(w2)
  {
  }

  // ---------------------------------------------------------------------------
  // Sensor packages
  // ---------------------------------------------------------------------------

  /** The table lists exactly the three codes, each with its constructor's arity. */
  lemma ReadPackageAccepts(code: string, data: seq<real>)
    ensures ReadPackage(code, data).Some? <==>
      ((code == "SWM" && |data| == 5) || (code == "RUN" && |data| == 3) || (code == "WLK" && |data| == 4))
  {
  }

  /** Reading back a workout's own code and fields reconstructs it. */
  lemma ReadPackageRoundTrip(w: Workout)
    ensures ReadPackage(Code(w), Fields(w)) == Some(w)
  {
  }

  /** Each code's constructor takes the values positionally, in field order. */
  lemma ReadPackagePositional(a: real, b: real, c: real, d: real, e: real)
    ensures ReadPackage("RUN", [a, b, c]) == Some(Running(a, b, c))
    ensures ReadPackage("WLK", [a, b, c, d]) == Some(SportsWalking(a, b, c, d))
    ensures ReadPackage("SWM", [a, b, c, d, e]) == Some(Swimming(a, b, c, d, e))
  {
  }

  // ---------------------------------------------------------------------------
  // The three packages of the script
  // ---------------------------------------------------------------------------

  lemma SwimmingPackage()
    ensures ReadPackage("SWM", [720.0, 1.0, 80.0, 25.0, 40.0])
         == Some(Swimming(720.0, 1.0, 80.0, 25.0, 40.0))
    ensures ShowTrainingInfo(Swimming(720.0, 1.0, 80.0, 25.0, 40.0))
         == InfoMessage("Swimming", 1.0, 0.9936, 1.0, 336.0)
  {
  }

  lemma RunningPackage()
    ensures ReadPackage("RUN", [15000.0, 1.0, 75.0]) == Some(Running(15000.0, 1.0, 75.0))
    ensures ShowTrainingInfo(Running(15000.0, 1.0, 75.0))
         == InfoMessage("Running", 1.0, 9.75, 9.75, 699.75)
  {
  }

  lemma WalkingPackage()
    ensures ReadPackage("WLK", [9000.0, 1.0, 75.0, 180.0])
         == Some(SportsWalking(9000.0, 1.0, 75.0, 180.0))
    ensures ShowTrainingInfo(SportsWalking(9000.0, 1.0, 75.0, 180.0))
         == InfoMessage("SportsWalking", 1.0, 5.85, 5.85, 157.5)
  {
    WalkingFloorTermZero(5.85, 180.0);
  }

  /** A walk fast enough for a floor term of 1: 13 km/h squared over 100 cm floors to 1. */
  lemma WalkingPackageFloorOne()
    ensures ShowTrainingInfo(SportsWalking(20000.0, 1.0, 75.0, 100.0))
         == InfoMessage("SportsWalking", 1.0, 13.0, 13.0, 288.0)
  {
    WalkingCaloriesAtFloor(13.0, 1.0, 75.0, 100.0, 1);
  }
}
