# Fitness tracker workout calculator

A model of the fitness-tracker module in `homework.py`. There are three workout classes: `Running`, `SportsWalking` and `Swimming`. They share a base `Training`. Each one turns its sensor readings into three values:

- distance in km,
- mean speed in km/h,
- spent calories in kcal.

`show_training_info` puts these values into an `InfoMessage` record. `read_package` maps a three-letter code (`SWM`, `RUN`, `WLK`) and a positional argument list to a constructed workout.

How the model is laid out:

- `wrappers.dfy`: module `Wrappers`, which holds `Option`.
- `homework.dfy`: module `Homework`. The class hierarchy becomes the datatype `Training`, with one constructor per class. Each `get_*` method becomes a function. `read_package` becomes `ReadPackage`.
- Python floats are exact `real`s.
- Every positional argument is a `real`, because Python does not enforce the `int` hints on `action` and `count_pool`.
- Python's float floor division `//` is `FloorDiv`, the floor of the exact quotient.

For an unknown code `read_package` does not raise. It returns the value of `print('data not found')`, which is `None` (homework.py:145), so `ReadPackage` returns `None`.

## Model

| member | source | states |
|---|---|---|
| `Homework.Distance` | homework.py:49-51 | distance in km times 1000 equals action times the step length: 0.65 m for Running and SportsWalking, 1.38 m for Swimming (which overrides `get_distance`); it is non-negative when action is non-negative |
| `Homework.MeanSpeed` | homework.py:53-55 | needs a non-zero duration; for Running and SportsWalking, speed times duration equals the distance; for Swimming (override at lines 120-124), speed times duration times 1000 equals pool length times lap count |
| `Homework.FloorDiv` | homework.py:95 | float `a // b` with a non-zero divisor is the integer k with k <= a/b < k+1; k is non-negative when a >= 0 and b > 0 |
| `Homework.FloorDivUnique` | homework.py:95 | any integer k with k <= a/b < k+1 is the floor-division result |
| `Homework.WalkingTerm` | homework.py:95 | the term `speed**2 // height` is an integer within one below speed²/height, and is non-negative when the height is positive |
| `Homework.RunningCalories` | homework.py:70-75 | needs a non-zero duration; the running formula `(18·speed − 20)·weight/1000·duration·60` equals 1.08·weight·distance − 1.2·weight·duration |
| `Homework.WalkingCalories` | homework.py:90-97 | needs non-zero duration and height; walking calories equal (2.1 + 1.74·floor term)·weight·duration, the constants 0.035·60 and 0.029·60 multiplied out |
| `Homework.SwimmingCalories` | homework.py:126-132 | needs a non-zero duration; swimming calories equal 2·weight·speed + 2.2·weight |
| `Homework.SpentCalories` | homework.py:57-132 | `get_spent_calories` as each class overrides it, for a non-zero duration (and non-zero height when walking): Running 1.08·weight·distance − 1.2·weight·duration; SportsWalking (2.1 + 1.74·floor term)·weight·duration; Swimming 2·weight·speed + 2.2·weight |
| `Homework.RunningCaloriesMonotone` | homework.py:70-75 | with non-negative weight and equal duration, more steps never give fewer running calories |
| `Homework.WalkingCaloriesAtLeastBase` | homework.py:90-97 | for positive height and duration and non-negative weight, walking calories are at least 0.035·weight·duration·60 |
| `Homework.SwimmingCaloriesMonotone` | homework.py:126-132 | with positive duration, non-negative weight and pool length, more laps never give fewer swimming calories |
| `Homework.SwimmingSpeedIgnoresAction` | homework.py:120-124 | Swimming mean speed does not depend on the stroke count `action` |
| `Homework.BaseStepShared` | homework.py:37-51 | Running and SportsWalking with the same action cover the same distance, which is action·0.65/1000, because the base method names `Training.LEN_STEP` explicitly |
| `Homework.TypeNameIdentifiesClass` | homework.py:62 | two workouts report the same type name exactly when they are of the same class |
| `Homework.ShowTrainingInfo` | homework.py:60-64 | the message holds, in order, the type name, the duration, the distance, the mean speed and the calories; for Running and SportsWalking its speed times its duration equals its distance |
| `Homework.Lookup` | homework.py:142-145 | the loop finds nothing exactly when no table entry has the code; otherwise it returns the class of the first entry whose code matches |
| `Homework.ArgsOf` | homework.py:40-114 | a workout's positional constructor arguments number 3 (Running), 4 (SportsWalking) or 5 (Swimming) |
| `Homework.Build` | homework.py:144 | `training_class(*arguments)` builds the requested class, and its constructor arguments are exactly the given list, in order |
| `Homework.ReadPackage` | homework.py:135-145 | gives `None` exactly when the code is not SWM, RUN or WLK; otherwise gives a workout whose code is the input code and whose arguments are the input list |
| `Homework.ReadPackageRoundTrip` | homework.py:135-145 | reading back any workout's own code and argument list rebuilds that same workout |
| `Homework.ReadPackageByCode` | homework.py:137-144 | RUN builds `Running`, WLK builds `SportsWalking` and SWM builds `Swimming`, each from the arguments in positional order |
| `Homework.SwimmingDemo` | homework.py:156 | `SWM [720,1,80,25,40]`: distance 0.9936, speed 1.0, calories 336.0 |
| `Homework.RunningDemo` | homework.py:157 | `RUN [15000,1,75]`: distance 9.75, speed 9.75, calories 699.75 |
| `Homework.WalkingDemo` | homework.py:158 | `WLK [9000,1,75,180]`: distance 5.85, speed 5.85, floor term 0, calories 157.5 |

## Left out

- `main` (homework.py:148-151) only prints. The demonstration loop (homework.py:154-163) is I/O. The values it would print are stated as `SwimmingDemo`, `RunningDemo` and `WalkingDemo` instead.
- `InfoMessage.get_message` (homework.py:25-31) formats floats with `:.3f`. Float-to-decimal rounding is library behaviour, so the message is modelled only as the record of its five fields.
- The printed `data not found` text (homework.py:145) is a side effect. Only its `None` result is kept.
- IEEE-754 rounding is left out. All formulas are over exact reals.
- The base `Training.get_spent_calories` (homework.py:57-58) returns `None` implicitly. No constructor reaches it, because the variant set is closed.
- ReadPackage: Python raises `TypeError` when the argument count does not match the constructor. The model instead requires the count to match, using `ArgsFit`.
- MeanSpeed: a zero duration raises `ZeroDivisionError` in Python. Here it is a precondition, not an error result.
- SpentCalories: a zero duration, or a zero height for walking, raises `ZeroDivisionError` in Python. Here it is a precondition (`WellDefined`), not an error result.
- Python's `self.__class__.__name__` reflection is the plain function `TypeName`.
