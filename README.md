# Fitness calculator model

A Dafny model of the fitness calculator in `homework.py`. The calculator turns
the sensor readings of one workout into distance (km), mean speed (km/h) and
calories spent. There are three kinds of workout: Running, SportsWalking and
Swimming.

- `homework.dfy`, module `Homework`. The constants. The closed datatype
  `Training` with one constructor per workout class. The base formulas
  `Distance`, `MeanSpeed` and `BaseMeanSpeed`. Each class's calorie formula
  (`RunningCalories`, `WalkingCalories`, `SwimmingCalories`), with `Calories`
  dispatching on the kind. The `InfoMessage` summary and `ShowTrainingInfo`.
  The dispatch table `Arity` and `ReadPackage`, which returns a `Result`
  instead of raising.
- `homework_properties.dfy`, module `HomeworkProperties`. Lemmas about the
  model: the dispatch round trip, closed forms and signs of the calorie
  formulas, what the floor in the walking formula loses, and the three sample
  workouts of the driver.

Every quantity is a Dafny `real`, and the constants (0.65, 1.38, 1000, 18, 20,
0.035, 0.029, 1.1, 2, 60) are exact rationals. The walking formula's
`speed ** 2 // height` is Python float floor division, which rounds toward
negative infinity. It is modelled as `real.Floor`, which does the same
(`FlooredSpeedTerm`). The floor is kept as written. `WalkingFloorBounds` shows
how far the result can fall below the true-division formula.

Python raises `ZeroDivisionError` when the duration is zero, and also when a
walk's height is zero, because of the `//`. The source does not guard either
case. The model turns them into preconditions. `MeanSpeed` requires a nonzero
duration. `Calories` and `ShowTrainingInfo` require `Computable`, meaning a
nonzero duration and, for a walk, a nonzero height.

`read_package` looks the tag up in a dict and then calls the constructor with
`*data`. An unknown tag raises `KeyError`, modelled as
`Err(UnknownWorkoutType(tag))`. A list of the wrong length raises `TypeError`,
modelled as `Err(WrongArity(expected, given))`. The positional values are a
`seq<real>`, because Python does not enforce the `int` hints on `action`,
`length_pool` and `count_pool`.

The sample run burns (18 × 9.75 − 20) × 75 / 1000 × 1 × 60 = 699.75 calories
(printed as 699.750); `SampleRunning` states it.

## Model

| member | source | states |
|---|---|---|
| `Homework.Distance` | homework.py:43-46 | distance in km times 1000, divided by the step length (0.65 m, or 1.38 m for a swim), gives back the step count |
| `Homework.MeanSpeed` | homework.py:124-130 | with a nonzero duration: for a run or walk (the base `Training.get_mean_speed`, homework.py:48-51), speed × duration = distance; for a swim, speed × duration × 1000 = pool length × pool count, whatever the step count |
| `Homework.BaseMeanSpeed` | homework.py:48-51 | the base-class speed (used by `super().get_mean_speed()` in the walking formula) times the duration is the distance |
| `Homework.FlooredSpeedTerm` | homework.py:102-103 | `speed ** 2 // height` is the greatest integer not above speed² / height |
| `Homework.ClassName` | homework.py:59 | the label is "Running", "SportsWalking" or "Swimming" exactly for the matching kind of record |
| `Homework.LenStep` | homework.py:112 | the step length is positive, and it is the swimming stroke length (1.38 m, overriding the base 0.65 m of homework.py:31) exactly for a swim |
| `Homework.Calories` | homework.py:76-139 | each kind uses its own `get_spent_calories`: for a run the closed form below; for a walk the fixed part plus one step per unit of the floored term; for a swim calories × duration = (pool km + 1.1 × duration) × 2 × weight |
| `Homework.RunningCalories` | homework.py:76-83 | running calories = (18 × distance − 20 × duration) × weight × 0.06, the division by the duration cancelled through speed × duration = distance |
| `Homework.WalkingCalories` | homework.py:97-106 | walking calories = 0.035 × weight × duration × 60 plus 0.029 × weight × duration × 60 for each unit of the floored `speed ** 2 // height` |
| `Homework.SwimmingCalories` | homework.py:132-139 | swimming calories × duration = (pool length × pool count / 1000 + 1.1 × duration) × 2 × weight |
| `Homework.ShowTrainingInfo` | homework.py:57-64 | the summary's label is the class name and its duration is the input duration unchanged; its distance and calories are the record's; for a run or walk, distance = speed × duration; for a swim, speed × duration × 1000 = pool length × pool count |
| `Homework.ReadPackage` | homework.py:142-148 | an unknown tag gives exactly `UnknownWorkoutType`; a known tag with the wrong number of values (SWM 5, RUN 3, WLK 4) gives exactly `WrongArity`; a known tag with the right number of values succeeds, and the record built has that tag and those values in constructor order |
| `Homework.WorkoutType` | homework.py:144-146 | every record's tag is a key of the dispatch table, and the table's arity for it is the number of the record's fields |
| `Homework.Fields` | homework.py:114-122 | the positional values are action, duration, weight, then height for a walk, or pool length and pool count for a swim, and nothing more for a run |
| `HomeworkProperties.ReadPackageRoundTrip` | homework.py:144-147 | dispatching a record's own tag and positional fields rebuilds exactly that record |
| `HomeworkProperties.LabelMatchesTag` | homework.py:59 | two records have the same summary label if and only if they have the same dispatch tag |
| `HomeworkProperties.RunAndWalkShareBaseFormulas` | homework.py:43-51 | a run and a walk with the same steps and duration have the same distance, steps × 0.65 / 1000, and the same speed; the height plays no part |
| `HomeworkProperties.SwimmingIgnoresStrokes` | homework.py:124-139 | two swims that differ only in stroke count have equal speed and equal calories, and equal distance only when the counts are equal |
| `HomeworkProperties.RunningCaloriesSign` | homework.py:76-83 | with positive weight and duration, running calories are negative exactly when speed < 20/18 and zero exactly when speed = 20/18 |
| `HomeworkProperties.WalkingFloorBounds` | homework.py:97-106 | with positive weight and duration, walking calories are at most the true-division formula, and less than 0.029 × weight × duration × 60 below it |
| `HomeworkProperties.WalkingBelowHeight` | homework.py:97-106 | when speed² is below a positive height, the floored term is 0 and walking calories are 0.035 × weight × duration × 60 |
| `HomeworkProperties.SwimmingCaloriesLowerBound` | homework.py:132-139 | with a non-negative pool length and count and a positive duration and weight, swimming calories are at least 1.1 × 2 × weight |
| `HomeworkProperties.SampleSwimming` | homework.py:159 | `SWM [720, 1, 80, 25, 40]` gives the summary Swimming, 1, 0.9936, 1.0, 336.0 |
| `HomeworkProperties.SampleRunning` | homework.py:160 | `RUN [15000, 1, 75]` gives the summary Running, 1, 9.75, 9.75, 699.75 |
| `HomeworkProperties.SampleWalking` | homework.py:161 | `WLK [9000, 1, 75, 180]` gives the summary SportsWalking, 1, 5.85, 5.85, 157.5 (5.85² / 180 floors to 0) |
| `HomeworkProperties.WalkingFloorBoundary` | homework.py:100-105 | at 13 km/h, a height of 169 yields a floored term of 1 and a height of 170 yields 0, so the calories drop by 0.029 × weight × 60 |
| `HomeworkProperties.UnknownTagRejected` | homework.py:144-147 | the tag `XYZ` is rejected as an unknown workout type whatever the values |

## Left out

- `InfoMessage.get_message` (homework.py:19-25): the `:.3f` string rendering is decimal rounding of floats, which has no meaning over `real`. The summary is modelled as a record of its fields.
- `main`, `print` and the `__main__` driver loop (homework.py:151-166): console I/O. Its three sample packages appear as the `Sample*` lemmas.
- IEEE-754 rounding: every quantity is an exact `real`, so float error is not reproduced.
- `Training.get_spent_calories` in the base class (homework.py:53-55) returns `None`. The closed datatype has no base-class value, so it cannot be reached.
- `self.__class__.__name__` and `training_dict[...](*data)`: runtime reflection and unpacking are replaced by `ClassName` and an explicit arity check on a `seq<real>`. A value of the wrong Python type (a string, say) is not modelled.
- Division by zero (`ZeroDivisionError`): the model does not return an error for it. It is excluded by the preconditions `duration != 0` and, for a walk's calories, `height != 0`.
- Sign conditions: `WalkingFloorBounds`, `RunningCaloriesSign` and `SwimmingCaloriesLowerBound` assume a positive duration and weight, the physical range. Outside that range only the formulas themselves are modelled.
- Calling a summary function twice yields equal summaries. That holds because Dafny functions are deterministic, so there is no lemma for it.
