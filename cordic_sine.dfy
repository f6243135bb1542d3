/** The "CORDIC sine approximation" variant: snap next to +-pi, reduce into
    [-pi, pi], classify the angle into one of four quadrants and fold it, run
    sixteen micro-rotations of (1, 0) driven by a table of arctangents, scale
    by the gain constant and negate for the fourth quadrant. */
module CordicSine {
  import opened JavaNumerics
  import opened SinReduction

  /** atan(2^-i) for i = 0 .. 15, as declared. */
  const CORDIC_TABLE: seq<real> := [
    0.78539816339744830961566084581988,
    0.46364760900080611621425623146121,
    0.24497866312686415417208248121125,
    0.12435499454676143503135484916387,
    0.06241880999595735001266223708923,
    0.03123983343026827677213224609375,
    0.01562372862047683143278159022963,
    0.00781234106010111072490699797697,
    0.00390623013196697053054907127756,
    0.00195312251647881851173596536827,
    0.00097656218955931943040518985934,
    0.00048828121119489827547633981431,
    0.00024414062014936176401972135958,
    0.00012207031189367020424246244476,
    0.00006103515617420877374873989883,
    0.00003051757811552610187500593106
  ]

  /** The number of micro-rotations: one per table entry. */
  const ITERATIONS: nat := 16

  const CORDIC_K: real := 0.6072529350088812561694

  /** The quadrant the variant assigns to a reduced angle, by its four tests in
      order; the last one catches everything left. */
  function Quadrant(angle: real): (q: int)
    ensures 1 <= q <= 4
  {
    if 0.0 <= angle <= MATH_HALF_PI then 1
    else if MATH_HALF_PI < angle <= MATH_PI then 2
    else if -MATH_PI <= angle < -MATH_HALF_PI then 3
    else 4
  }

  /** The angle the rotations start from, per quadrant. On [-pi, pi] it lies
      in [-pi/2, pi/2]; the third quadrant folds to a non-positive angle and is
      the only one that can fold below 0. */
  function FoldQuadrant(angle: real): (folded: real)
    ensures -MATH_PI <= angle <= MATH_PI ==> -MATH_HALF_PI <= folded <= MATH_HALF_PI
    ensures -MATH_PI <= angle <= MATH_PI && Quadrant(angle) == 3 ==> folded <= 0.0
    ensures -MATH_PI <= angle <= MATH_PI && Quadrant(angle) != 3 ==> folded >= 0.0
  {
    match Quadrant(angle)
    case 1 => angle
    case 2 => MATH_PI - angle
    case 3 => -MATH_PI - angle
    case _ => -angle
  }

  /** On [-pi, pi] the four quadrants are the intervals [0, pi/2], (pi/2, pi],
      [-pi, -pi/2) and [-pi/2, 0): they cover it and do not overlap. */
  lemma QuadrantsPartitionPrincipalRange(angle: real)
    requires -MATH_PI <= angle <= MATH_PI
    ensures Quadrant(angle) == 1 <==> 0.0 <= angle <= MATH_HALF_PI
    ensures Quadrant(angle) == 2 <==> MATH_HALF_PI < angle <= MATH_PI
    ensures Quadrant(angle) == 3 <==> -MATH_PI <= angle < -MATH_HALF_PI
    ensures Quadrant(angle) == 4 <==> -MATH_HALF_PI <= angle < 0.0
  {
  }

  /** The rotation state `(x0, y0, z)`. */
  datatype Rotation = Rotation(x: real, y: real, z: real)

  /** The step scale 2^-i of micro-rotation i, halved from one step to the next. */
  function StepScale(i: nat): (p: real)
    ensures 0.0 < p <= 1.0
  {
    if i == 0 then 1.0 else StepScale(i - 1) / 2.0
  }

  /** It is the `1.0 / (1 << i)` of the loop. */
  lemma {:induction false} StepScaleIsReciprocal(i: nat)
    ensures StepScale(i) == 1.0 / Pow2(i) as real
  {
    if i > 0 {
      StepScaleIsReciprocal(i - 1);
      HalfOfReciprocal(Pow2(i - 1) as real);
    }
  }

  lemma HalfOfReciprocal(n: real)
    requires n > 0.0
    ensures (1.0 / n) / 2.0 == 1.0 / (2.0 * n)
  {
  }

  /** Micro-rotation number i: counter-clockwise by atan(2^-i) when the
      residual angle is non-negative (so also when it is exactly 0), clockwise
      otherwise. Either way the residual angle moves toward 0 by the table
      entry: its new magnitude is the distance of the old one from the entry. */
  function MicroRotation(r: Rotation, i: nat): (next: Rotation)
    requires i < ITERATIONS
    ensures Abs(next.z) == Abs(Abs(r.z) - CORDIC_TABLE[i])
  {
    var power := StepScale(i);
    if r.z >= 0.0 then Rotation(r.x - r.y * power, r.y + r.x * power, r.z - CORDIC_TABLE[i])
    else Rotation(r.x + r.y * power, r.y - r.x * power, r.z + CORDIC_TABLE[i])
  }

  /** Micro-rotations i, i + 1, ..., ITERATIONS - 1 applied in order to r. */
  function RotateFrom(r: Rotation, i: nat): Rotation
    requires i <= ITERATIONS
    decreases ITERATIONS - i
  {
    if i == ITERATIONS then r else RotateFrom(MicroRotation(r, i), i + 1)
  }

  /** The variant as a function of its input; inputs within 1e-14 of pi or
      -pi give exactly 0. */
  function CordicSin(x: real): (r: real)
    ensures NearPi(x) ==> r == 0.0
  {
    if NearPi(x) then 0.0
    else
      var angle := ReduceAngle(x);
      var y := RotateFrom(Rotation(1.0, 0.0, FoldQuadrant(angle)), 0).y * CORDIC_K;
      if Quadrant(angle) == 4 then -y else y
  }

  /** The lambda, step by step: snap, `%`, one correction, quadrant tests, the
      sixteen-step loop, the gain and the quadrant's sign. */
  method ComputeCordicSin(x: real) returns (result: real)
    ensures result == CordicSin(x)
  {
    var angle := x;
    if Abs(angle - MATH_PI) < PI_SNAP_EPSILON || Abs(angle + MATH_PI) < PI_SNAP_EPSILON {
      return 0.0;
    }
    angle := JavaRem(angle, MATH_TWO_PI);
    if angle > MATH_PI {
      angle := angle - MATH_TWO_PI;
    } else if angle < -MATH_PI {
      angle := angle + MATH_TWO_PI;
    }
    assert angle == ReduceAngle(x);
    var quadrant;
    if angle >= 0.0 && angle <= MATH_HALF_PI {
      quadrant := 1;
    } else if angle > MATH_HALF_PI && angle <= MATH_PI {
      quadrant := 2;
      angle := MATH_PI - angle;
    } else if angle >= -MATH_PI && angle < -MATH_HALF_PI {
      quadrant := 3;
      angle := -MATH_PI - angle;
    } else {
      quadrant := 4;
      angle := -angle;
    }
    assert quadrant == Quadrant(ReduceAngle(x)) && angle == FoldQuadrant(ReduceAngle(x));
    var rotated := RunMicroRotations(angle);
    var y0 := rotated.y;
    y0 := y0 * CORDIC_K;
    if quadrant == 4 {
      result := -y0;
    } else {
      result := y0;
    }
  }

  /** The sixteen-step loop of the lambda, updating `x0`, `y0` and `z`. */
  method RunMicroRotations(angle: real) returns (r: Rotation)
    ensures r == RotateFrom(Rotation(1.0, 0.0, angle), 0)
  {
    var x0, y0, z := 1.0, 0.0, angle;
    var i := 0;
    while i < |CORDIC_TABLE|
      invariant 0 <= i <= ITERATIONS
      invariant RotateFrom(Rotation(x0, y0, z), i) == RotateFrom(Rotation(1.0, 0.0, angle), 0)
    {
      var sign := if z >= 0.0 then 1.0 else -1.0;
      var xTemp, yTemp := x0, y0;
      var power := 1.0 / Pow2(i) as real;
      StepScaleIsReciprocal(i);
      MicroRotationUnfolds(xTemp, yTemp, z, i, sign, power);
      x0 := xTemp - sign * yTemp * power;
      y0 := yTemp + sign * xTemp * power;
      z := z - sign * CORDIC_TABLE[i];
      i := i + 1;
    }
    r := Rotation(x0, y0, z);
  }

  /** The loop's update, written with `sign` = +-1, is the micro-rotation. */
  lemma MicroRotationUnfolds(x: real, y: real, z: real, i: nat, sign: real, power: real)
    requires i < ITERATIONS
    requires sign == (if z >= 0.0 then 1.0 else -1.0) && power == StepScale(i)
    ensures MicroRotation(Rotation(x, y, z), i) == Rotation(x - sign * y * power, y + sign * x * power, z - sign * CORDIC_TABLE[i])
  {
    var angle := CORDIC_TABLE[i];
    if z >= 0.0 {
      SignedProducts(x, y, power, angle, 1.0);
      assert MicroRotation(Rotation(x, y, z), i) == Rotation(x - y * power, y + x * power, z - angle);
    } else {
      SignedProducts(x, y, power, angle, -1.0);
      assert MicroRotation(Rotation(x, y, z), i) == Rotation(x + y * power, y - x * power, z + angle);
    }
  }

  lemma SignedProducts(x: real, y: real, power: real, angle: real, sign: real)
    requires sign == 1.0 || sign == -1.0
    ensures sign == 1.0 ==> sign * y * power == y * power && sign * x * power == x * power && sign * angle == angle
    ensures sign == -1.0 ==> sign * y * power == -(y * power) && sign * x * power == -(x * power) && sign * angle == -angle
  {
  }

  /** Squared length of the (x0, y0) vector. */
  function Norm(r: Rotation): real
  {
    r.x * r.x + r.y * r.y
  }

  /** A rotation by a factor g and its perpendicular grows the squared length
      by 1 + g^2. */
  lemma ScaledRotationNorm(x: real, y: real, g: real)
    ensures (x - g * y) * (x - g * y) + (y + g * x) * (y + g * x) == (x * x + y * y) * (1.0 + g * g)
  {
  }

  /** `1 + 4^-i`, the factor by which micro-rotation i scales the squared length. */
  function GrowthFactor(i: nat): real
  {
    1.0 + StepScale(i) * StepScale(i)
  }

  /** Micro-rotation i multiplies the squared length by exactly 1 + 4^-i,
      whichever direction it turns. */
  lemma MicroRotationNorm(r: Rotation, i: nat)
    requires i < ITERATIONS
    ensures Norm(MicroRotation(r, i)) == Norm(r) * GrowthFactor(i)
  {
    var power := StepScale(i);
    if r.z >= 0.0 {
      ScaledRotationNorm(r.x, r.y, power);
    } else {
      ScaledRotationNorm(r.x, r.y, -power);
      assert -power * r.y == -(power * r.y) && -power * r.x == -(power * r.x);
      assert (-power) * (-power) == power * power;
    }
  }

  /** The states of the run from the unit vector at residual angle 0, one per
      micro-rotation, as exact decimals. */
  function ZeroRun(i: nat): Rotation
    requires i <= ITERATIONS
  {
    match i
    case 0 => Rotation(1.0, 0.0, 0.0)
    case 1 => Rotation(1.0, 1.0, -0.78539816339744830961566084581988)
    case 2 => Rotation(1.5, 0.5, -0.32175055439664219340140461435867)
    case 3 => Rotation(1.625, 0.125, -0.07677189126977803922932213314742)
    case 4 => Rotation(1.640625, -0.078125, 0.04758310327698339580203271601645)
    case 5 => Rotation(1.6455078125, 0.0244140625, -0.01483570671897395421062952107278)
    case 6 => Rotation(1.646270751953125, -0.027008056640625, 0.01640412671129432256150272502097)
    case 7 => Rotation(1.646692752838134765625, -0.001285076141357421875, 0.00078039809081749112872113479134)
    case 8 => Rotation(1.6467027924954891204833984375, 0.0115797109901905059814453125, -0.00703194296928361959618586318563)
    case 9 => Rotation(1.646748025741544552147388458251953125, 0.005147278207005001604557037353515625, -0.00312571283731664906563679190807)
    case 10 => Rotation(1.646758079019292608791147358715534210205078125, 0.001930973469228547401144169270992279052734375, -0.0011725903208378305539008265398)
    case 11 => Rotation(1.6467599647355711522944687885683379136025905609130859375, 0.0003228112826862694628715644284966401755809783935546875, -0.00019602813127851112349563668046)
    case 12 => Rotation(1.646760122358267776449479956324406515477676293812692165374755859375, -0.000481270731344771138834719159671493571295286528766155242919921875, 0.00029225307991638715198070313385)
    case 13 => Rotation(1.646760239856004921168996273394513857150911473326004852424375712871551513671875, -0.000079229685847147169974982842209480261852494464847040944732725620269775390625, 0.00004811245976702538796098177427)
    case 14 => Rotation(1.6467602495275974318070785457312865878003575002418330808229285366905969567596912384033203125, 0.0001217908512446503057536543981951234804754976583616998819792343056178651750087738037109375, -0.00007395785212664481628148067049)
    case 15 => Rotation(1.646760256961121067344816934015856790139437119107656955438399848899722055506344986497424542903900146484375, 0.000021280582108444407816210639300391633075573494528580187104787983798370731847171555273234844207763671875, -0.00001292269595243604253274077166)
    case _ => Rotation(1.646760257610552894384746371766425616445334124587805103893605754197206912634358043356908041232600226067006587982177734375, -0.000028974552686511679444068197797260246506318507397312664318503027215414731272528914285402379391598515212535858154296875, 0.0000175948821630900593422651594)
  }

  /** Each state of ZeroRun is the micro-rotation of the one before. */
  lemma ZeroRunStep(i: nat)
    requires i < ITERATIONS
    ensures MicroRotation(ZeroRun(i), i) == ZeroRun(i + 1)
  {
    if i < 4 {
      ZeroRunSteps0(i);
    } else if i < 8 {
      ZeroRunSteps1(i);
    } else if i < 12 {
      ZeroRunSteps2(i);
    } else {
      ZeroRunSteps3(i);
    }
  }

  /** Micro-rotations 0 to 3 of ZeroRun, in exact arithmetic. */
  lemma ZeroRunSteps0(i: nat)
    requires 0 <= i < 4
    ensures MicroRotation(ZeroRun(i), i) == ZeroRun(i + 1)
  {
    if i == 0 {
      assert MicroRotation(Rotation(1.0, 0.0, 0.0), 0) == Rotation(1.0, 1.0, -0.78539816339744830961566084581988);
    } else if i == 1 {
      assert MicroRotation(Rotation(1.0, 1.0, -0.78539816339744830961566084581988), 1) == Rotation(1.5, 0.5, -0.32175055439664219340140461435867);
    } else if i == 2 {
      assert MicroRotation(Rotation(1.5, 0.5, -0.32175055439664219340140461435867), 2) == Rotation(1.625, 0.125, -0.07677189126977803922932213314742);
    } else {
      assert MicroRotation(Rotation(1.625, 0.125, -0.07677189126977803922932213314742), 3) == Rotation(1.640625, -0.078125, 0.04758310327698339580203271601645);
    }
  }

  /** Micro-rotations 4 to 7 of ZeroRun, in exact arithmetic. */
  lemma ZeroRunSteps1(i: nat)
    requires 4 <= i < 8
    ensures MicroRotation(ZeroRun(i), i) == ZeroRun(i + 1)
  {
    if i == 4 {
      assert MicroRotation(Rotation(1.640625, -0.078125, 0.04758310327698339580203271601645), 4) == Rotation(1.6455078125, 0.0244140625, -0.01483570671897395421062952107278);
    } else if i == 5 {
      assert MicroRotation(Rotation(1.6455078125, 0.0244140625, -0.01483570671897395421062952107278), 5) == Rotation(1.646270751953125, -0.027008056640625, 0.01640412671129432256150272502097);
    } else if i == 6 {
      assert MicroRotation(Rotation(1.646270751953125, -0.027008056640625, 0.01640412671129432256150272502097), 6) == Rotation(1.646692752838134765625, -0.001285076141357421875, 0.00078039809081749112872113479134);
    } else {
      assert MicroRotation(Rotation(1.646692752838134765625, -0.001285076141357421875, 0.00078039809081749112872113479134), 7) == Rotation(1.6467027924954891204833984375, 0.0115797109901905059814453125, -0.00703194296928361959618586318563);
    }
  }

  /** Micro-rotations 8 to 11 of ZeroRun, in exact arithmetic. */
  lemma ZeroRunSteps2(i: nat)
    requires 8 <= i < 12
    ensures MicroRotation(ZeroRun(i), i) == ZeroRun(i + 1)
  {
    if i == 8 {
      assert MicroRotation(Rotation(1.6467027924954891204833984375, 0.0115797109901905059814453125, -0.00703194296928361959618586318563), 8) == Rotation(1.646748025741544552147388458251953125, 0.005147278207005001604557037353515625, -0.00312571283731664906563679190807);
    } else if i == 9 {
      assert MicroRotation(Rotation(1.646748025741544552147388458251953125, 0.005147278207005001604557037353515625, -0.00312571283731664906563679190807), 9) == Rotation(1.646758079019292608791147358715534210205078125, 0.001930973469228547401144169270992279052734375, -0.0011725903208378305539008265398);
    } else if i == 10 {
      assert MicroRotation(Rotation(1.646758079019292608791147358715534210205078125, 0.001930973469228547401144169270992279052734375, -0.0011725903208378305539008265398), 10) == Rotation(1.6467599647355711522944687885683379136025905609130859375, 0.0003228112826862694628715644284966401755809783935546875, -0.00019602813127851112349563668046);
    } else {
      assert MicroRotation(Rotation(1.6467599647355711522944687885683379136025905609130859375, 0.0003228112826862694628715644284966401755809783935546875, -0.00019602813127851112349563668046), 11) == Rotation(1.646760122358267776449479956324406515477676293812692165374755859375, -0.000481270731344771138834719159671493571295286528766155242919921875, 0.00029225307991638715198070313385);
    }
  }

  /** Micro-rotations 12 to 15 of ZeroRun, in exact arithmetic. */
  lemma ZeroRunSteps3(i: nat)
    requires 12 <= i < 16
    ensures MicroRotation(ZeroRun(i), i) == ZeroRun(i + 1)
  {
    if i == 12 {
      assert MicroRotation(Rotation(1.646760122358267776449479956324406515477676293812692165374755859375, -0.000481270731344771138834719159671493571295286528766155242919921875, 0.00029225307991638715198070313385), 12) == Rotation(1.646760239856004921168996273394513857150911473326004852424375712871551513671875, -0.000079229685847147169974982842209480261852494464847040944732725620269775390625, 0.00004811245976702538796098177427);
    } else if i == 13 {
      assert MicroRotation(Rotation(1.646760239856004921168996273394513857150911473326004852424375712871551513671875, -0.000079229685847147169974982842209480261852494464847040944732725620269775390625, 0.00004811245976702538796098177427), 13) == Rotation(1.6467602495275974318070785457312865878003575002418330808229285366905969567596912384033203125, 0.0001217908512446503057536543981951234804754976583616998819792343056178651750087738037109375, -0.00007395785212664481628148067049);
    } else if i == 14 {
      assert MicroRotation(Rotation(1.6467602495275974318070785457312865878003575002418330808229285366905969567596912384033203125, 0.0001217908512446503057536543981951234804754976583616998819792343056178651750087738037109375, -0.00007395785212664481628148067049), 14) == Rotation(1.646760256961121067344816934015856790139437119107656955438399848899722055506344986497424542903900146484375, 0.000021280582108444407816210639300391633075573494528580187104787983798370731847171555273234844207763671875, -0.00001292269595243604253274077166);
    } else {
      assert MicroRotation(Rotation(1.646760256961121067344816934015856790139437119107656955438399848899722055506344986497424542903900146484375, 0.000021280582108444407816210639300391633075573494528580187104787983798370731847171555273234844207763671875, -0.00001292269595243604253274077166), 15) == Rotation(1.646760257610552894384746371766425616445334124587805103893605754197206912634358043356908041232600226067006587982177734375, -0.000028974552686511679444068197797260246506318507397312664318503027215414731272528914285402379391598515212535858154296875, 0.0000175948821630900593422651594);
    }
  }

  /** From state i of ZeroRun the remaining micro-rotations end in its last state. */
  lemma {:induction false} ZeroRunFrom(i: nat)
    requires i <= ITERATIONS
    ensures RotateFrom(ZeroRun(i), i) == ZeroRun(ITERATIONS)
    decreases ITERATIONS - i
  {
    if i < ITERATIONS {
      ZeroRunStep(i);
      ZeroRunFrom(i + 1);
    }
  }

  /** The run starts from the unit vector at residual angle 0 ... */
  lemma ZeroRunStart()
    ensures ZeroRun(0) == Rotation(1.0, 0.0, 0.0)
  {
  }

  /** ... and ends below the x axis. */
  lemma ZeroRunEnd()
    ensures ZeroRun(ITERATIONS).y < 0.0
  {
  }

  /** From residual angle 0 the run ends in the last state of ZeroRun. */
  lemma RotateFromZeroAngle(z: real)
    requires z == 0.0
    ensures RotateFrom(Rotation(1.0, 0.0, z), 0) == ZeroRun(ITERATIONS)
  {
    ZeroRunStart();
    ZeroRunFrom(0);
  }

  /** At residual angle 0 the scaled y of the run is negative. */
  lemma ScaledRunAtZeroAngle(z: real)
    requires z == 0.0
    ensures RotateFrom(Rotation(1.0, 0.0, z), 0).y * CORDIC_K < 0.0
  {
    RotateFromZeroAngle(z);
    ZeroRunEnd();
    NegativeTimesPositive(ZeroRun(ITERATIONS).y, CORDIC_K);
  }

  /** On [0, pi/2] (the first quadrant) the input is rotated as it is and the
      scaled y is returned without a sign change. */
  lemma CordicSinOnFirstQuadrant(x: real)
    requires 0.0 <= x <= MATH_HALF_PI
    ensures CordicSin(x) == RotateFrom(Rotation(1.0, 0.0, x), 0).y * CORDIC_K
  {
    ReduceAngleFixesPrincipalRange(x);
  }

  /** Input 0 does not give 0: at residual angle 0 the first micro-rotation
      still turns counter-clockwise, and after all sixteen the scaled y is
      negative, about -1.76e-5. */
  lemma CordicSinAtZero(x: real)
    requires x == 0.0
    ensures CordicSin(x) < 0.0
  {
    CordicSinOnFirstQuadrant(x);
    ScaledRunAtZeroAngle(x);
  }

  lemma NegativeTimesPositive(a: real, b: real)
    requires a < 0.0 && b > 0.0
    ensures a * b < 0.0
  {
  }
}
