# Fitness-tracker calculator in Dafny

A model of `homework.py`, a calculator that turns raw sensor readings of three
workout variants (running, sports walking, swimming) into a summary: distance in
km, mean speed in km/h and spent calories. It also models the dispatch table
that maps a three-letter code (`SWM`, `RUN`, `WLK`) and a list of numbers to a
workout.

- `wrappers.dfy` — module `Wrappers`: the `Option` datatype.
- `homework.dfy` — module `Homework`: the constants, the `Workout` and
  `InfoMessage` datatypes, the formulas (`Distance`, `MeanSpeed`, the three
  per-variant calorie formulas and `Calories`), `ShowTrainingInfo`, and
  `ReadPackage` over the dispatch table `TrainingTypes`.
- `properties.dfy` — module `HomeworkProperties`: lemmas about the formulas,
  the summary and the dispatch, and the three packages of the script worked out.

Python floats are exact `real`s here. Python's float floor division `x // h`
is `FloorDiv`, the floor of the exact quotient. The base class `Training` is
not a variant: its `get_distance` and `get_mean_speed` are the cases of
`Distance` and `MeanSpeed` that running and sports walking inherit.
Swimming overrides the step length (1.38 instead of 0.65) and the mean speed.
`type(self).__name__` is the fixed string given by `TrainingType`.

A division by zero raises in Python. The model makes it a precondition instead:
`MeanSpeed` requires a non-zero duration, and `Calories` and `ShowTrainingInfo`
require `Computable`, which also asks for a non-zero height for sports walking.
An unknown code, or a constructor call with the wrong number of arguments, also
raises in Python. `ReadPackage` returns `None` for both.

A malformed record is not caught. `read_package` raises (homework.py:116), and
the `__main__` loop (homework.py:132-134) has no handler. `ReadPackage` returns
`None` where that call raises.

## Model

| member | source | states |
|---|---|---|
| Homework.TrainingType | homework.py:50 | each variant reports its own class name, and the three names tell the variants apart |
| Homework.Distance | homework.py:33-36 | distance in km, converted back by the variant's step length, gives the step count again; it is non-negative exactly when the step count is |
| Homework.MeanSpeed | homework.py:38-41 | for running and walking, speed times duration is the distance; for swimming, speed times duration in metres is the pool length times the number of lengths (homework.py:97-101) |
| Homework.FloorDiv | homework.py:82 | `//` gives an integer no larger than the quotient and within one of it |
| Homework.LenStep | homework.py:91 | the length per step is positive; it is the swimming stroke length 1.38 exactly for swimming, and the class constant 0.65 of homework.py:26 for running and walking |
| Homework.RunningCalories | homework.py:64-68 | for a positive weight and duration, running burns calories exactly above the break-even speed of 20/18 km/h and none exactly at it; no weight or no time burns nothing. Its closed form over the raw readings is `RunningCaloriesClosedForm` |
| Homework.WalkingCalories | homework.py:78-85 | for non-negative readings the walking formula is at least `0.035 * weight * duration * 60`; it equals that when speed² is below the height, and exceeds it otherwise for a positive weight and duration. `WalkingCaloriesAtFloor` gives its exact value for every floor term |
| Homework.SwimmingCalories | homework.py:103-108 | for non-negative speed and weight, swimming burns at least `2.2 * weight`, exactly that at zero speed |
| Homework.Calories | homework.py:64-108 | dispatches to the variant's own formula: no weight burns nothing; walking and swimming always burn calories for positive readings; running burns calories exactly above 20/18 km/h. Its closed forms and bounds over the raw readings are `RunningCaloriesClosedForm`, `WalkingCaloriesLowerBound`, `WalkingCaloriesAtFloor` and `SwimmingCaloriesClosedForm`, and `CaloriesScaleWithWeight` gives its proportionality to weight |
| Homework.TrainingTypes | homework.py:113-115 | the dispatch table has exactly the keys `SWM`, `RUN` and `WLK`, and no two codes map to the same variant |
| Homework.Arity | homework.py:29-31 | every variant's constructor takes 3 to 5 values: action, duration and weight, plus at most two variant fields (homework.py:76, 94-95) |
| Homework.KindOf | homework.py:113-115 | each table entry stands for exactly one variant, and each variant for exactly one entry |
| Homework.ShowTrainingInfo | homework.py:48-55 | the summary carries the class name, the input duration and the computed distance, speed and calories; for running and walking its speed times duration is its distance |
| Homework.Code | homework.py:113-115 | every variant has a code in the dispatch table, and that entry is the variant |
| Homework.Fields | homework.py:29-31 | a workout's fields in constructor order: as many as the constructor takes, beginning with action, duration and weight |
| Homework.Construct | homework.py:116 | the constructor call succeeds exactly when the number of values is the variant's field count, and it fills the fields in order |
| Homework.ReadPackage | homework.py:111-116 | succeeds exactly for a code in the table with the right number of values; the result has that code, and its fields are the values given |
| HomeworkProperties.InheritedDistanceAndSpeed | homework.py:26-41 | running and walking share distance `action * 0.65 / 1000` and speed; swimming's step length of 1.38 scales the distance by 1.38 / 0.65 (homework.py:91) |
| HomeworkProperties.SwimmingSpeedIgnoresAction | homework.py:97-101 | swimming speed is `length_pool * count_pool / (1000 * duration)` whatever the stroke count |
| HomeworkProperties.RunningCaloriesClosedForm | homework.py:61-68 | running calories over the raw readings are `0.06 * weight * (0.0117 * action - 20 * duration)` |
| Homework.WalkingFloorTermZero | homework.py:82 | the floored `speed² // height` term is never negative, and is zero exactly when speed² is below the height |
| Homework.WalkingCaloriesAtFloor | homework.py:74-85 | when `speed² // height` is the integer n, walking burns exactly `(2.1 + 1.74 * n) * weight * duration`: 0.035 * 60 for the weight term plus 0.029 * 60 per unit of the floor term |
| HomeworkProperties.WalkingCaloriesLowerBound | homework.py:78-85 | a walking workout burns at least `2.1 * weight * duration`; it burns exactly that when its mean speed squared is below its height, and for a positive weight strictly more otherwise |
| HomeworkProperties.SwimmingCaloriesClosedForm | homework.py:103-108 | swimming calories over the raw readings are `2 * weight * (pool km per hour) + 2.2 * weight` |
| HomeworkProperties.CaloriesScaleWithWeight | homework.py:64-108 | each of the three calorie formulas is proportional to the weight |
| HomeworkProperties.TrainingTypeIdentifiesVariant | homework.py:48-55 | two summaries have the same training type exactly when their workouts are the same variant |
| HomeworkProperties.ReadPackageAccepts | homework.py:111-116 | a package is read exactly when its code is `SWM` with 5 values, `RUN` with 3 or `WLK` with 4 |
| HomeworkProperties.ReadPackageRoundTrip | homework.py:113-116 | reading a workout's own code and fields gives that workout back |
| HomeworkProperties.ReadPackagePositional | homework.py:111-116 | `RUN`, `WLK` and `SWM` packages of the right length become the variant with the values in field order: action, duration, weight, then height or pool length and count |
| HomeworkProperties.SwimmingPackage | homework.py:127 | `SWM [720, 1, 80, 25, 40]` reads as a swim of distance 0.9936, speed 1.0 and 336 calories |
| HomeworkProperties.RunningPackage | homework.py:128 | `RUN [15000, 1, 75]` reads as a run of distance and speed 9.75 and 699.75 calories |
| HomeworkProperties.WalkingPackage | homework.py:129 | `WLK [9000, 1, 75, 180]` reads as a walk of distance and speed 5.85 and 157.5 calories, the floor term being 0 |
| HomeworkProperties.WalkingPackageFloorOne | homework.py:78-85 | a walk of 20000 steps in 1 h at 75 kg and 100 cm height has distance and speed 13.0 and a floor term of 1, hence 288 calories |

## Left out

- `InfoMessage.get_message` (homework.py:14-20): rendering floats with three decimals is string formatting, not modelled.
- `main` and the `__main__` loop (homework.py:119-134): printing is I/O; the three packages appear only as the inputs of `SwimmingPackage`, `RunningPackage` and `WalkingPackage`.
- IEEE-754 rounding: all arithmetic is exact over `real`, so the values are those the formulas mean, not the floats Python prints.
- The abstract `Training.get_spent_calories` that raises `NotImplementedError` (homework.py:43-46): the base class is not a variant of `Workout`.
- Division by a zero duration or height: Python raises `ZeroDivisionError`; the model requires non-zero divisors instead of modelling that error.
- Field types: the type hints `int`/`float` are not enforced by Python, so every field is a `real` taken from the package as given.
- Idempotence of a summary: every member is a function, so the same reading always gives the same summary; there is no separate lemma.
- Recovery from a malformed record: `read_package` raises and nothing in homework.py catches it, so the model has only the `None` result of `ReadPackage`.
