# Workout statistics calculator — Dafny model

A model of the calculation layer of a small fitness tracker (`homework.py`).
A training session records a step or stroke count (`action`), a duration in
hours and a weight in kilograms; from these the base class `Training` computes
the distance in km and the mean speed in km/h. Each subclass adds its own
calorie formula: `Running`, `SportsWalking` (which also takes a height) and
`Swimming` (which also takes a pool length and a lap count, uses a 1.38 m
stroke and computes its speed from the pool). `show_training_info` collects
the class name, the duration and the three computed values into an
`InfoMessage` record. `read_package` maps the codes `SWM`, `RUN` and `WLK` to a
class and passes the data list to its constructor as positional arguments.

Files:

- `wrappers.dfy`: module `Wrappers`, a `Result` type for the exceptions raised.
- `homework.dfy`: module `Homework`. The class hierarchy is one datatype
  `Training` with a constructor per class (`Base` is an instance of the base
  class itself). It also holds the getters as functions, the `InfoMessage`
  record, `read_package`, and the lemmas about them.
- `samples.dfy`: module `HomeworkSamples`, the driver's three sample packages
  and some bad packages, as concrete lemmas.

Modelling decisions:

- Numbers are exact `real`s. Python's float `//` is `FloorDiv`, the floor of
  the exact quotient. `speed ** 2` is `speed * speed`.
- All numeric fields and the data list are `real`. `read_package` forwards
  whatever numbers it receives, whatever the constructor annotations say.
- Python raises `ZeroDivisionError` when the duration is 0, or when a walking
  session's height is 0. Each getter's `requires` names the divisors it divides
  by. `ShowTrainingInfo` is total: it returns `Failure(ZeroDivision)` exactly
  when one of the getters it calls would raise.
- An unknown code makes `read_package` print a warning and then fail at
  `return workout`, because the local was never bound. The model returns
  `Failure(UnsupportedActivity(code))`. A known code whose list has the wrong
  length raises `TypeError` in the constructor. The model returns
  `Failure(WrongArgumentCount(expected, given))`.
- The driver's running sample burns (18 * 9.75 - 20) * 75 / 1000 * 60 =
  699.75 kcal (`HomeworkSamples.RunningSample`).
- The getters are functions of a value that is never changed after it is
  built. So calling one twice gives the same result by construction.

## Model

| member | source | states |
|---|---|---|
| `Homework.ClassName` | homework.py:57 | the reported `training_type` is the class name: "Training", "Running", "SportsWalking" or "Swimming", each exactly for its own class |
| `Homework.ClassNameIdentifiesClass` | homework.py:55-57 | the reported `training_type` (the class name) is equal for two sessions exactly when the same class built them |
| `Homework.Distance` | homework.py:40-43 | distance in km is `LEN_STEP` times `action` over 1000, with 0.65 m per step for the base class, Running and SportsWalking (line 29) and 1.38 m per stroke for Swimming (line 97) |
| `Homework.StepsFromDistance` | homework.py:40-43 | inverse of `get_distance`: the distance times 1000 over the class's `LEN_STEP` gives back `action` |
| `Homework.MeanSpeed` | homework.py:45-48 | `get_mean_speed` and Swimming's override (lines 111-114): at a non-zero duration, default speed times duration is the step distance (base, Running, SportsWalking); Swimming's speed times duration, in metres, is `length_pool * count_pool` (its independence from `action` is `SwimmingIgnoresAction`) |
| `Homework.FloorDiv` | homework.py:89 | Python's float `//`: an integral value q with q <= x / y < q + 1 |
| `Homework.FloorDivZero` | homework.py:89 | for x >= 0 and y > 0, `x // y` is 0 exactly when x < y |
| `Homework.RunningCalories` | homework.py:71-75 | the running formula (18 * speed - 20) * weight / 1000 * (duration * 60); for positive weight and duration it is positive exactly when 18 * speed > 20 |
| `Homework.WalkingCalories` | homework.py:87-92 | the walking formula (0.035 * weight + (speed ** 2 // height) * 0.029 * weight) * (duration * 60); for positive height and non-negative weight and duration it is never below 0.035 * weight * duration * 60 |
| `Homework.SwimmingCalories` | homework.py:116-119 | the swimming formula (speed + 1.1) * 2 * weight; for positive weight it exceeds the resting 2.2 * weight exactly when the speed is positive |
| `Homework.SpentCalories` | homework.py:50-53 | the base class's `get_spent_calories` is 0; each subclass routes to its own formula with its own mean speed |
| `Homework.ShowTrainingInfo` | homework.py:55-63 | succeeds exactly when no getter divides by zero (otherwise ZeroDivision); the record carries the class name, the unchanged duration and the three getters of the same session |
| `Homework.RunningCaloriesClosedForm` | homework.py:68-75 | at the default speed, the running formula (18 * speed - 20) * weight / 1000 * (duration * 60) equals 0.06 * weight * (18 * distance - 20 * duration) |
| `Homework.RunningCaloriesFromDistance` | homework.py:71-75 | a running session's calories are determined by its distance, duration and weight as above |
| `Homework.RunningCaloriesPositive` | homework.py:71-75 | for positive weight and duration, running calories are positive exactly when 18 * speed > 20 |
| `Homework.WalkingCaloriesSlow` | homework.py:80-92 | for a positive height, the floor term `speed ** 2 // height` is 0 exactly when speed squared is below the height, so the formula reduces to 0.035 * weight * duration * 60 |
| `Homework.WalkingSlowCalories` | homework.py:87-92 | a walking session whose squared mean speed is below its height burns 0.035 * weight * duration * 60 kcal |
| `Homework.WalkingCaloriesAtLeastBaseline` | homework.py:87-92 | a walking session burns at least 0.035 * weight * duration * 60 kcal |
| `Homework.SwimmingIgnoresAction` | homework.py:111-119 | two swims that differ only in `action` have equal speed and calories, and equal distance only if their actions are equal |
| `Homework.SwimmingSpeedDistanceAgree` | homework.py:95-114 | swimming speed times duration equals the inherited stroke distance exactly when 1.38 * action == length_pool * count_pool |
| `Homework.SwimmingCaloriesGrowWithLaps` | homework.py:111-119 | with the same pool, duration and positive weight, more laps give a higher speed and more calories (speed + 1.1) * 2 * weight |
| `Homework.Construct` | homework.py:130 | calling a class with positional data succeeds exactly when the length matches the constructor's arity (3, 4 or 5), and the session's fields are the data in order; otherwise the error names the expected and the given count |
| `Homework.ReadPackage` | homework.py:122-131 | succeeds exactly for a code in {SWM, RUN, WLK} with a list of that class's arity; an unknown code fails with UnsupportedActivity; the result is never the base class, and its code and fields are the inputs |
| `Homework.ReadPackageRoundTrip` | homework.py:122-131 | every Running, SportsWalking or Swimming session is rebuilt by `read_package` from its code and its constructor arguments |
| `Homework.ReadPackageSummary` | homework.py:122-131 | a package read successfully is summarised under the class name its code selects, with the forwarded duration, and the summary fails only on a zero duration or a zero walking height |
| `HomeworkSamples.SwimmingSample` | homework.py:143 | ('SWM', [720, 1, 80, 25, 40]) gives Swimming, 1 h, 0.9936 km, 1 km/h, 336 kcal |
| `HomeworkSamples.RunningSample` | homework.py:144 | ('RUN', [15000, 1, 75]) gives Running, 1 h, 9.75 km, 9.75 km/h, 699.75 kcal |
| `HomeworkSamples.WalkingSample` | homework.py:145 | ('WLK', [9000, 1, 75, 180]) gives SportsWalking, 1 h, 5.85 km, 5.85 km/h, 157.5 kcal |
| `HomeworkSamples.BadPackages` | homework.py:127-130 | an unknown code and short lists for known codes fail with the corresponding error |
| `HomeworkSamples.ZeroDurationSample` | homework.py:45-48 | a zero duration makes the summary fail with ZeroDivision |

## Left out

- `InfoMessage.get_message` (homework.py:16-22): it renders the fields into fixed text with three decimals. Only the record's fields are modelled.
- The warning that `read_package` prints for an unknown code is console output. It is modelled only as the failure that follows it.
- `main` and the `__main__` loop over the sample packages (homework.py:134-150) only print. The samples appear as concrete lemmas instead.
- IEEE-754 rounding: the model computes with exact reals, so Python's results may differ in the last bits.
- Python's dynamic `*data` unpacking and its runtime type errors: the data is a sequence of reals, and only its length is checked.
