/** Properties of the fitness calculator in `Homework`: the dispatch round
    trip, the sign of the running formula, the effect of the floor in
    the walking formula, and the sample workouts. */
module HomeworkProperties {
  import opened Homework

  /** Dispatch round trip: a record's own tag and positional fields rebuild it. */
  lemma ReadPackageRoundTrip(t: Training)
    ensures ReadPackage(WorkoutType(t), Fields(t)) == Ok(t)
  {
    match t
    case Running(a, d, w) =>
      assert Fields(t) == [a, d, w];
    case SportsWalking(a, d, w, h) =>
      assert Fields(t) == [a, d, w, h];
    case Swimming(a, d, w, l, c) =>
      assert Fields(t) == [a, d, w, l, c];
  }

  /** The summary label and the dispatch tag name the same kind of workout. */
  lemma LabelMatchesTag(s: Training, t: Training)
    ensures ClassName(s) == ClassName(t) <==> WorkoutType(s) == WorkoutType(t)
  {
  }

  /** A run and a walk with the same steps and duration share the base
      distance and speed formulas; the height plays no part in them. */
  lemma RunAndWalkShareBaseFormulas(a: real, d: real, w: real, h: real)
    requires d != 0.0
    ensures Distance(Running(a, d, w)) == Distance(SportsWalking(a, d, w, h)) == a * StepLength / MetersInKm
    ensures MeanSpeed(Running(a, d, w)) == MeanSpeed(SportsWalking(a, d, w, h))
  {
  }

  /** A swim's speed and calories do not depend on the stroke count; only
      its distance does. */
  lemma SwimmingIgnoresStrokes(a1: real, a2: real, d: real, w: real, l: real, c: real)
    requires d != 0.0
    ensures MeanSpeed(Swimming(a1, d, w, l, c)) == MeanSpeed(Swimming(a2, d, w, l, c))
    ensures Calories(Swimming(a1, d, w, l, c)) == Calories(Swimming(a2, d, w, l, c))
    ensures Distance(Swimming(a1, d, w, l, c)) == Distance(Swimming(a2, d, w, l, c)) <==> a1 == a2
  {
    assert Distance(Swimming(a1, d, w, l, c)) * MetersInKm / StrokeLength == a1;
    assert Distance(Swimming(a2, d, w, l, c)) * MetersInKm / StrokeLength == a2;
  }

  /** For a positive weight and duration, a run burns a negative number of
      calories exactly when its mean speed is below 20 / 18 km/h. */
  lemma RunningCaloriesSign(t: Training)
    requires t.Running? && t.duration > 0.0 && t.weight > 0.0
    ensures Calories(t) < 0.0 <==> MeanSpeed(t) < RunCoeff2 / RunCoeff1
    ensures Calories(t) == 0.0 <==> MeanSpeed(t) == RunCoeff2 / RunCoeff1
  {
    var k := RunCoeff1 * MeanSpeed(t) - RunCoeff2;
    var f := t.weight / MetersInKm * t.duration * MinutesInHour;
    assert f > 0.0;
    assert Calories(t) == k * f;
    SignOfProduct(k, f);
  }

  /** The sign of a product with a positive factor. */
  lemma SignOfProduct(k: real, f: real)
    requires f > 0.0
    ensures k * f < 0.0 <==> k < 0.0
    ensures k * f == 0.0 <==> k == 0.0
  {
    if k < 0.0 {
      assert k * f < 0.0;
    } else if k > 0.0 {
      assert k * f > 0.0;
    }
  }

  /** Reference walking formula with true division of the squared speed by
      the height, in place of the floor. */
  ghost function WalkingCaloriesTrueDivision(t: Training): real
    requires t.SportsWalking? && t.duration != 0.0 && t.height != 0.0
  {
    (WalkCoeff1 * t.weight + SpeedTerm(t) * WalkCoeff2 * t.weight)
      * t.duration * MinutesInHour
  }

  /** The floor in the walking formula loses less than one unit of
      `speed^2 / height`: for a positive weight and duration the source's
      value is at most the true-division value and less than 0.029 * weight
      * duration * 60 below it. */
  lemma WalkingFloorBounds(t: Training)
    requires t.SportsWalking? && t.duration > 0.0 && t.height != 0.0 && t.weight > 0.0
    ensures Calories(t) <= WalkingCaloriesTrueDivision(t)
    ensures WalkingCaloriesTrueDivision(t) < Calories(t) + WalkCoeff2 * t.weight * t.duration * MinutesInHour
  {
    var q := SpeedTerm(t);
    var n := FlooredSpeedTerm(t);
    var fl := n as real;
    assert q < (n + 1) as real == fl + 1.0;
    var g := WalkCoeff2 * t.weight * t.duration * MinutesInHour;
    assert g > 0.0;
    var base := WalkCoeff1 * t.weight * t.duration * MinutesInHour;
    WalkingSplit(t.weight, t.duration, fl);
    WalkingSplit(t.weight, t.duration, q);
    assert Calories(t) == WalkingCalories(t) == base + fl * g;
    assert WalkingCaloriesTrueDivision(t) == base + q * g;
    ScaleBetween(fl, q, g);
  }

  /** The walking formula as a fixed part plus a part proportional to the
      speed term `x`. */
  lemma WalkingSplit(w: real, d: real, x: real)
    ensures (WalkCoeff1 * w + x * WalkCoeff2 * w) * d * MinutesInHour
      == WalkCoeff1 * w * d * MinutesInHour + x * (WalkCoeff2 * w * d * MinutesInHour)
  {
  }

  /** Scaling `lo <= x < lo + 1` by a positive factor. */
  lemma ScaleBetween(lo: real, x: real, g: real)
    requires lo <= x < lo + 1.0 && g > 0.0
    ensures lo * g <= x * g < lo * g + g
  {
    assert (x - lo) * g >= 0.0;
    assert (lo + 1.0 - x) * g > 0.0;
  }

  /** When the squared speed is below a positive height the floored term is
      zero, and a walk burns 0.035 * weight * duration * 60 whatever its speed. */
  lemma WalkingBelowHeight(t: Training)
    requires t.SportsWalking? && t.duration != 0.0 && t.height > 0.0
    requires MeanSpeed(t) * MeanSpeed(t) < t.height
    ensures Calories(t) == WalkCoeff1 * t.weight * t.duration * MinutesInHour
  {
    var speed := BaseMeanSpeed(t);
    assert speed == MeanSpeed(t);
    BelowOne(speed * speed, t.height);
    assert SpeedTerm(t) == (speed * speed) / t.height;
    var n := FlooredSpeedTerm(t);
    assert (n as real) < 1.0;
    assert ((n + 1) as real) > 0.0;
    assert Calories(t) == WalkingCalories(t);
  }

  /** A non-negative quotient below a positive divisor is below one. */
  lemma BelowOne(x: real, h: real)
    requires 0.0 <= x < h
    ensures 0.0 <= x / h < 1.0
  {
    var q := x / h;
    assert q * h == x;
  }

  /** A swim with non-negative pool length and count, positive duration and
      positive weight burns at least 1.1 * 2 * weight calories. */
  lemma SwimmingCaloriesLowerBound(t: Training)
    requires t.Swimming? && t.duration > 0.0 && t.weight > 0.0
    requires t.lengthPool >= 0.0 && t.countPool >= 0.0
    ensures Calories(t) >= SwimCoeff1 * SwimCoeff2 * t.weight
  {
    var pool := t.lengthPool * t.countPool / MetersInKm;
    assert pool >= 0.0;
    assert MeanSpeed(t) == pool / t.duration;
    assert MeanSpeed(t) >= 0.0;
    var k := MeanSpeed(t) * SwimCoeff2 * t.weight;
    assert k >= 0.0;
    assert Calories(t) == k + SwimCoeff1 * SwimCoeff2 * t.weight;
  }

  /** The sample swim `SWM [720, 1, 80, 25, 40]`. */
  lemma SampleSwimming()
    ensures var r := ReadPackage("SWM", [720.0, 1.0, 80.0, 25.0, 40.0]);
      r.Ok? && Computable(r.value)
      && ShowTrainingInfo(r.value) == InfoMessage("Swimming", 1.0, 0.9936, 1.0, 336.0)
  {
  }

  /** The sample run `RUN [15000, 1, 75]`. */
  lemma SampleRunning()
    ensures var r := ReadPackage("RUN", [15000.0, 1.0, 75.0]);
      r.Ok? && Computable(r.value)
      && ShowTrainingInfo(r.value) == InfoMessage("Running", 1.0, 9.75, 9.75, 699.75)
  {
  }

  /** The sample walk `WLK [9000, 1, 75, 180]`: 5.85^2 / 180 floors to 0. */
  lemma SampleWalking()
    ensures var r := ReadPackage("WLK", [9000.0, 1.0, 75.0, 180.0]);
      r.Ok? && Computable(r.value)
      && ShowTrainingInfo(r.value) == InfoMessage("SportsWalking", 1.0, 5.85, 5.85, 157.5)
  {
    var t := SportsWalking(9000.0, 1.0, 75.0, 180.0);
    assert MeanSpeed(t) == 5.85;
    WalkingBelowHeight(t);
  }

  /** The floor at a boundary: at 13 km/h the squared speed is 169, so a
      height of 169 gives a floored term of 1 and a height of 170 gives 0. */
  lemma WalkingFloorBoundary()
    ensures Calories(SportsWalking(20000.0, 1.0, 70.0, 169.0))
      == (WalkCoeff1 + WalkCoeff2) * 70.0 * MinutesInHour
    ensures Calories(SportsWalking(20000.0, 1.0, 70.0, 170.0))
      == WalkCoeff1 * 70.0 * MinutesInHour
  {
    var s := SportsWalking(20000.0, 1.0, 70.0, 169.0);
    var t := SportsWalking(20000.0, 1.0, 70.0, 170.0);
    assert BaseMeanSpeed(s) == 13.0;
    assert (13.0 * 13.0) / 169.0 == 1.0;
    assert BaseMeanSpeed(t) == 13.0;
    WalkingBelowHeight(t);
  }

  /** An unknown tag such as `XYZ` is rejected whatever the values. */
  lemma UnknownTagRejected(data: seq<real>)
    ensures ReadPackage("XYZ", data) == Err(UnknownWorkoutType("XYZ"))
  {
  }
}
