/** Fitness tracker: three workout variants that derive distance (km), mean
    speed (km/h) and spent calories (kcal) from raw sensor readings, a report
    record, and a dispatcher from a three-letter code to a variant.

    Python floats are modelled as exact `real`s; every positional argument is
    a `real` because Python does not enforce the `int` hints on `action` and
    `count_pool`. */
module Homework {
  import opened Wrappers

  // ---------------------------------------------------------------------------
  // Constants
  // ---------------------------------------------------------------------------

  /** Step length of `Training` (metres per step), used by Running and SportsWalking. */
  const LEN_STEP: real := 0.65
  /** Stroke length of `Swimming` (metres per stroke). */
  const SWIM_LEN_STEP: real := 1.38
  /** Metres in a kilometre. */
  const M_IN_KM: real := 1000.0
  /** Minutes in an hour, the literal `60` of the calorie formulas. */
  const MIN_IN_H: real := 60.0

  // ---------------------------------------------------------------------------
  // Data model
  // ---------------------------------------------------------------------------

  /** One workout session; the base `Training` fields are shared by every
      variant, the extra ones belong to the subclass that adds them. */
  datatype Training =
    | Running(action: real, duration: real, weight: real)
    | SportsWalking(action: real, duration: real, weight: real, height: real)
    | Swimming(action: real, duration: real, weight: real, lengthPool: real, countPool: real)

  /** The report `show_training_info` builds: its five fields in order. */
  datatype InfoMessage = InfoMessage(
    trainingType: string,
    duration: real,
    distance: real,
    speed: real,
    calories: real)

  /** The classes the dispatcher can construct. */
  datatype Kind = SwimmingKind | RunningKind | WalkingKind

  /** Every divisor the formulas use is non-zero: the duration for all
      variants, the height for SportsWalking. */
  predicate WellDefined(t: Training) {
    t.duration != 0.0 && (t.SportsWalking? ==> t.height != 0.0)
  }

  /** Metres covered by one unit of action: `Swimming.LEN_STEP` overrides the
      base constant only inside `Swimming.get_distance`. */
  function StepLength(t: Training): real {
    if t.Swimming? then SWIM_LEN_STEP else LEN_STEP
  }

  // ---------------------------------------------------------------------------
  // Derived values
  // ---------------------------------------------------------------------------

  /** `get_distance`: action times step length, converted from metres to km. */
  function Distance(t: Training): (r: real)
    ensures r * M_IN_KM == t.action * StepLength(t)
    ensures t.action >= 0.0 ==> r >= 0.0
  {
    match t
    case Swimming(_, _, _, _, _) => t.action * SWIM_LEN_STEP / M_IN_KM
    case _ => t.action * LEN_STEP / M_IN_KM
  }

  /** `get_mean_speed`: for Running and SportsWalking the distance per hour;
      Swimming overrides it with the pool length times the lap count, which
      does not involve the strokes counted in `action`. */
  function MeanSpeed(t: Training): (r: real)
    requires t.duration != 0.0
    ensures !t.Swimming? ==> r * t.duration == Distance(t)
    ensures t.Swimming? ==> r * t.duration * M_IN_KM == t.lengthPool * t.countPool
  {
    match t
    case Swimming(_, _, _, _, _) => t.lengthPool * t.countPool / M_IN_KM / t.duration
    case _ => Distance(t) / t.duration
  }

  /** Python's `a // b` on floats: the greatest integer not above `a / b`. */
  function FloorDiv(a: real, b: real): (r: int)
    requires b != 0.0
    ensures r as real <= a / b < r as real + 1.0
    ensures a >= 0.0 && b > 0.0 ==> r >= 0
  {
    (a / b).Floor
  }

  /** The floor-division term `get_mean_speed()**2 // height` of the walking formula. */
  function WalkingTerm(t: Training): (r: int)
    requires t.SportsWalking? && WellDefined(t)
    ensures r as real <= MeanSpeed(t) * MeanSpeed(t) / t.height < r as real + 1.0
    ensures t.height > 0.0 ==> r >= 0
  {
    FloorDiv(MeanSpeed(t) * MeanSpeed(t), t.height)
  }

  /** `Running.get_spent_calories`: with speed times duration equal to the
      distance, running calories are linear in distance and duration. */
  function RunningCalories(t: Training): (r: real)
    requires t.Running? && t.duration != 0.0
    ensures r == 1.08 * t.weight * Distance(t) - 1.2 * t.weight * t.duration
  {
    (18.0 * MeanSpeed(t) - 20.0) * t.weight / M_IN_KM * t.duration * MIN_IN_H
  }

  /** `SportsWalking.get_spent_calories`: a weight-and-time base plus the
      floor-division term, both scaled by weight and duration. */
  function WalkingCalories(t: Training): (r: real)
    requires t.SportsWalking? && WellDefined(t)
    ensures r == (2.1 + 1.74 * WalkingTerm(t) as real) * t.weight * t.duration
  {
    (0.035 * t.weight + WalkingTerm(t) as real * 0.029 * t.weight) * t.duration * MIN_IN_H
  }

  /** `Swimming.get_spent_calories`: linear in the mean speed, with a
      weight-only offset. */
  function SwimmingCalories(t: Training): (r: real)
    requires t.Swimming? && t.duration != 0.0
    ensures r == 2.0 * t.weight * MeanSpeed(t) + 2.2 * t.weight
  {
    (MeanSpeed(t) + 1.1) * 2.0 * t.weight
  }

  /** `get_spent_calories`, dispatched on the variant as Python's method
      override does. */
  function SpentCalories(t: Training): (r: real)
    requires WellDefined(t)
    ensures t.Running? ==>
      r == 1.08 * t.weight * Distance(t) - 1.2 * t.weight * t.duration
    ensures t.SportsWalking? ==>
      r == (2.1 + 1.74 * WalkingTerm(t) as real) * t.weight * t.duration
    ensures t.Swimming? ==>
      r == 2.0 * t.weight * MeanSpeed(t) + 2.2 * t.weight
  {
    match t
    case Running(_, _, _) => RunningCalories(t)
    case SportsWalking(_, _, _, _) => WalkingCalories(t)
    case Swimming(_, _, _, _, _) => SwimmingCalories(t)
  }

  /** `self.__class__.__name__` for each variant. */
  function TypeName(t: Training): string {
    match t
    case Running(_, _, _) => "Running"
    case SportsWalking(_, _, _, _) => "SportsWalking"
    case Swimming(_, _, _, _, _) => "Swimming"
  }

  /** `show_training_info`: type name, duration, distance, speed and calories,
      in that order. */
  function ShowTrainingInfo(t: Training): (r: InfoMessage)
    requires WellDefined(t)
    ensures r.trainingType == TypeName(t) && r.duration == t.duration
    ensures r.distance == Distance(t) && r.speed == MeanSpeed(t)
    ensures r.calories == SpentCalories(t)
    ensures !t.Swimming? ==> r.speed * r.duration == r.distance
  {
    InfoMessage(TypeName(t), t.duration, Distance(t), MeanSpeed(t), SpentCalories(t))
  }

  // ---------------------------------------------------------------------------
  // Dispatcher
  // ---------------------------------------------------------------------------

  /** The class a value was built from. */
  function KindOf(t: Training): Kind {
    match t
    case Running(_, _, _) => RunningKind
    case SportsWalking(_, _, _, _) => WalkingKind
    case Swimming(_, _, _, _, _) => SwimmingKind
  }

  /** Number of positional arguments the class constructor takes. */
  function Arity(k: Kind): nat {
    match k
    case RunningKind => 3
    case WalkingKind => 4
    case SwimmingKind => 5
  }

  /** The `code_class` dictionary, in its insertion (= iteration) order. */
  const CodeTable: seq<(string, Kind)> :=
    [("SWM", SwimmingKind), ("RUN", RunningKind), ("WLK", WalkingKind)]

  /** The code that selects each kind in `CodeTable`. */
  function CodeOf(k: Kind): string {
    match k
    case SwimmingKind => "SWM"
    case RunningKind => "RUN"
    case WalkingKind => "WLK"
  }

  /** The `for ... if code == type_of_workout: return` loop: the kind of the
      first entry whose code matches, or nothing if none does. */
  function Lookup(table: seq<(string, Kind)>, code: string): (r: Option<Kind>)
    ensures r.None? <==> forall i :: 0 <= i < |table| ==> table[i].0 != code
    ensures r.Some? ==>
      exists i :: 0 <= i < |table| && table[i] == (code, r.value) &&
        forall j :: 0 <= j < i ==> table[j].0 != code
  {
    if table == [] then None
    else if table[0].0 == code then Some(table[0].1)
    else
      Lookup(table[1..], code)
  }

  /** The argument list `read_package` needs for `t`'s constructor. */
  function ArgsOf(t: Training): (r: seq<real>)
    ensures |r| == Arity(KindOf(t))
  {
    match t
    case Running(a, d, w) => [a, d, w]
    case SportsWalking(a, d, w, h) => [a, d, w, h]
    case Swimming(a, d, w, l, c) => [a, d, w, l, c]
  }

  /** `training_class(*arguments)`: the arguments fill the constructor's
      parameters in positional order. */
  function Build(k: Kind, args: seq<real>): (r: Training)
    requires |args| == Arity(k)
    ensures KindOf(r) == k && ArgsOf(r) == args
  {
    match k
    case RunningKind => Running(args[0], args[1], args[2])
    case WalkingKind => SportsWalking(args[0], args[1], args[2], args[3])
    case SwimmingKind => Swimming(args[0], args[1], args[2], args[3], args[4])
  }

  /** A known code must come with exactly as many arguments as its
      constructor takes (otherwise Python raises `TypeError`). */
  predicate ArgsFit(code: string, args: seq<real>) {
    (code == "SWM" ==> |args| == 5) &&
    (code == "RUN" ==> |args| == 3) &&
    (code == "WLK" ==> |args| == 4)
  }

  /** `read_package`: the variant registered under `code`, built from `args`;
      an unknown code yields the `None` that `print('data not found')`
      returns. */
  function ReadPackage(code: string, args: seq<real>): (r: Option<Training>)
    requires ArgsFit(code, args)
    ensures r.None? <==> code != "SWM" && code != "RUN" && code != "WLK"
    ensures r.Some? ==> CodeOf(KindOf(r.value)) == code && ArgsOf(r.value) == args
  {
    match Lookup(CodeTable, code)
    case None => None
    case Some(k) =>
      assert CodeOf(k) == code by {
        var i :| 0 <= i < |CodeTable| && CodeTable[i] == (code, k);
      }
      Some(Build(k, args))
  }

  // ---------------------------------------------------------------------------
  // Properties
  // ---------------------------------------------------------------------------

  /** The reported type names tell the three classes apart. */
  lemma TypeNameIdentifiesClass(t: Training, u: Training)
    ensures TypeName(t) == TypeName(u) <==> KindOf(t) == KindOf(u)
  {
  }

  /** Reading back the code and argument list of any workout rebuilds it. */
  lemma ReadPackageRoundTrip(t: Training)
    ensures ArgsFit(CodeOf(KindOf(t)), ArgsOf(t))
    ensures ReadPackage(CodeOf(KindOf(t)), ArgsOf(t)) == Some(t)
  {
    var r := ReadPackage(CodeOf(KindOf(t)), ArgsOf(t));
    assert r.Some? && KindOf(r.value) == KindOf(t) && ArgsOf(r.value) == ArgsOf(t);
    match t
    case Running(_, _, _) =>
    case SportsWalking(_, _, _, _) =>
      assert ArgsOf(r.value)[3] == t.height;
    case Swimming(_, _, _, _, _) =>
      assert ArgsOf(r.value)[3] == t.lengthPool && ArgsOf(r.value)[4] == t.countPool;
  }

  /** Each known code builds its own class from the arguments in positional order. */
  lemma ReadPackageByCode(code: string, args: seq<real>)
    requires ArgsFit(code, args)
    ensures code == "RUN" ==> ReadPackage(code, args) == Some(Running(args[0], args[1], args[2]))
    ensures code == "WLK" ==>
      ReadPackage(code, args) == Some(SportsWalking(args[0], args[1], args[2], args[3]))
    ensures code == "SWM" ==>
      ReadPackage(code, args) == Some(Swimming(args[0], args[1], args[2], args[3], args[4]))
  {
    if code in ["RUN", "WLK", "SWM"] {
      var t := ReadPackage(code, args).value;
      assert ArgsOf(t) == args;
      ReadPackageRoundTrip(t);
    }
  }

  /** Running and SportsWalking share the base step length: the same action
      gives the same distance whatever the walker's height. */
  lemma BaseStepShared(action: real, d: real, w: real, h: real)
    ensures Distance(Running(action, d, w)) == Distance(SportsWalking(action, d, w, h))
    ensures Distance(Running(action, d, w)) * M_IN_KM == action * 0.65
  {
  }

  /** Swimming's mean speed depends on the pool, not on the stroke count. */
  lemma SwimmingSpeedIgnoresAction(a1: real, a2: real, d: real, w: real, l: real, c: real)
    requires d != 0.0
    ensures MeanSpeed(Swimming(a1, d, w, l, c)) == MeanSpeed(Swimming(a2, d, w, l, c))
  {
  }

  /** The floor term is the unique integer within one below `a / b`. */
  lemma FloorDivUnique(a: real, b: real, k: int)
    requires b != 0.0 && k as real <= a / b < k as real + 1.0
    ensures FloorDiv(a, b) == k
  {
  }

  /** With non-negative weight, a longer run at the same duration burns at
      least as many calories. */
  lemma RunningCaloriesMonotone(a1: real, a2: real, d: real, w: real)
    requires d != 0.0 && w >= 0.0 && a1 <= a2
    ensures SpentCalories(Running(a1, d, w)) <= SpentCalories(Running(a2, d, w))
  {
    var t1, t2 := Running(a1, d, w), Running(a2, d, w);
    assert Distance(t1) <= Distance(t2);
    assert w * Distance(t1) <= w * Distance(t2);
  }

  /** For a walker of positive height, weight and duration, calories never
      fall below the weight-and-time base `0.035 * weight * duration * 60`. */
  lemma WalkingCaloriesAtLeastBase(t: Training)
    requires t.SportsWalking? && t.height > 0.0 && t.duration > 0.0 && t.weight >= 0.0
    ensures SpentCalories(t) >= 0.035 * t.weight * t.duration * MIN_IN_H
  {
    var k := WalkingTerm(t) as real;
    assert k >= 0.0;
    assert t.weight * t.duration >= 0.0;
    assert 1.74 * k * (t.weight * t.duration) >= 0.0;
  }

  /** Swimming calories grow with the number of laps when the pool length,
      the duration and the weight are positive. */
  lemma SwimmingCaloriesMonotone(a: real, d: real, w: real, l: real, c1: real, c2: real)
    requires d > 0.0 && w >= 0.0 && l >= 0.0 && c1 <= c2
    ensures SpentCalories(Swimming(a, d, w, l, c1)) <= SpentCalories(Swimming(a, d, w, l, c2))
  {
    var s1, s2 := MeanSpeed(Swimming(a, d, w, l, c1)), MeanSpeed(Swimming(a, d, w, l, c2));
    var m1, m2 := l * c1 / M_IN_KM, l * c2 / M_IN_KM;
    assert l * c1 <= l * c2;
    assert m1 <= m2;
    assert s1 == m1 / d && s2 == m2 / d;
    assert m1 / d <= m2 / d;
    assert w * s1 <= w * s2;
  }

  /** Demonstration package `SWM [720, 1, 80, 25, 40]`. */
  lemma SwimmingDemo()
    ensures ReadPackage("SWM", [720.0, 1.0, 80.0, 25.0, 40.0]).Some?
    ensures var t := ReadPackage("SWM", [720.0, 1.0, 80.0, 25.0, 40.0]).value;
      Distance(t) == 0.9936 && MeanSpeed(t) == 1.0 && SpentCalories(t) == 336.0
  {
    ReadPackageByCode("SWM", [720.0, 1.0, 80.0, 25.0, 40.0]);
  }

  /** Demonstration package `RUN [15000, 1, 75]`. */
  lemma RunningDemo()
    ensures ReadPackage("RUN", [15000.0, 1.0, 75.0]).Some?
    ensures var t := ReadPackage("RUN", [15000.0, 1.0, 75.0]).value;
      Distance(t) == 9.75 && MeanSpeed(t) == 9.75 && SpentCalories(t) == 699.75
  {
    ReadPackageByCode("RUN", [15000.0, 1.0, 75.0]);
  }

  /** Demonstration package `WLK [9000, 1, 75, 180]`: `5.85**2 // 180` is 0. */
  lemma WalkingDemo()
    ensures ReadPackage("WLK", [9000.0, 1.0, 75.0, 180.0]).Some?
    ensures var t := ReadPackage("WLK", [9000.0, 1.0, 75.0, 180.0]).value;
      Distance(t) == 5.85 && MeanSpeed(t) == 5.85 && WalkingTerm(t) == 0 &&
      SpentCalories(t) == 157.5
  {
    var t := SportsWalking(9000.0, 1.0, 75.0, 180.0);
    ReadPackageByCode("WLK", [9000.0, 1.0, 75.0, 180.0]);
    assert MeanSpeed(t) == 5.85;
    FloorDivUnique(5.85 * 5.85, 180.0, 0);
  }
}
