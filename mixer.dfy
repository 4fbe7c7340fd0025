/** The velocity arcade-drive mixer of the Drivetrain subsystem: two joystick
    axes (throttle, rotation) become a pair of left/right velocity setpoints in
    encoder ticks per 100 ms.  Java doubles are modelled as reals and
    MathUtil.clamp / Math.copySign by their mathematical definitions. */
module ArcadeMixer {

  /** Half-width of the joystick deadband. */
  const DeadbandWidth: real := 0.2

  /** Largest velocity setpoint issued, in encoder ticks per 100 ms. */
  const MaxVelocityTicks: real := 100.0

  /** The two shaped axes just before quadrant mixing. */
  datatype Shaped = Shaped(xSpeed: real, zRotation: real)

  /** A left/right pair of motor commands. */
  datatype Outputs = Outputs(left: real, right: real)

  function Abs(v: real): (r: real)
    ensures r >= 0.0 && (r == v || r == -v)
  {
    if v < 0.0 then -v else v
  }

  function Min(a: real, b: real): (r: real) { if a <= b then a else b }

  function Max(a: real, b: real): (r: real) { if a >= b then a else b }

  /** MathUtil.clamp: max(low, min(value, high)). */
  function Clamp(v: real, low: real, high: real): (r: real)
    ensures low <= high ==> low <= r <= high
    ensures low <= v <= high ==> r == v
    ensures low <= high && v < low ==> r == low
    ensures low <= high && high < v ==> r == high
  {
    Max(low, Min(v, high))
  }

  /** Clamping to the unit interval [-1, 1]. */
  function Unit(v: real): (r: real)
    ensures -1.0 <= r <= 1.0
    ensures -1.0 <= v <= 1.0 ==> r == v
    ensures v < -1.0 ==> r == -1.0
    ensures 1.0 < v ==> r == 1.0
  {
    Clamp(v, -1.0, 1.0)
  }

  /** Math.copySign(magnitude, sign) away from the signed zeros: the
      magnitude of the first argument with the sign of the second. */
  function CopySign(magnitude: real, sign: real): (r: real)
    ensures Abs(r) == Abs(magnitude)
    ensures sign < 0.0 ==> r <= 0.0
    ensures sign >= 0.0 ==> r >= 0.0
    ensures magnitude != 0.0 ==> r != 0.0
  {
    if sign < 0.0 then -Abs(magnitude) else Abs(magnitude)
  }

  /** The rescaling applied to an axis outside the deadband: the deadband edge
      moves to 0 and full scale stays at full scale. */
  function Rescale(v: real): (r: real)
    ensures DeadbandWidth < v <= 1.0 ==> 0.0 < r <= 1.0
    ensures -1.0 <= v < -DeadbandWidth ==> -1.0 <= r < 0.0
    ensures v > 0.0 ==> r * (1.0 - DeadbandWidth) == v - DeadbandWidth
    ensures v <= 0.0 ==> r * (1.0 - DeadbandWidth) == v + DeadbandWidth
  {
    if v > 0.0 then (v - DeadbandWidth) / (1.0 - DeadbandWidth)
    else (v + DeadbandWidth) / (1.0 - DeadbandWidth)
  }

  /** The deadband with rescaling: inside the band the axis reads 0. */
  function DeadbandRescale(v: real): (r: real)
    ensures (r == 0.0) <==> Abs(v) <= DeadbandWidth
    ensures -1.0 <= v <= 1.0 ==> -1.0 <= r <= 1.0
    ensures (r > 0.0) <==> v > DeadbandWidth
  {
    if Abs(v) > DeadbandWidth then Rescale(v) else 0.0
  }

  /** The squared response curve that keeps the sign of its input. */
  function SignedSquare(v: real): (r: real)
    ensures Abs(r) == v * v
    ensures v > 0.0 ==> r > 0.0
    ensures v < 0.0 ==> r < 0.0
    ensures v == 0.0 ==> r == 0.0
    ensures -1.0 <= v <= 1.0 ==> -1.0 <= r <= 1.0
  {
    SquareFacts(v);
    CopySignOfSquare(v);
    CopySign(v * v, v)
  }

  /** The square of a non-zero value is non-zero, so the signed square keeps a
      non-zero input's sign strictly. */
  lemma CopySignOfSquare(v: real)
    ensures v != 0.0 ==> CopySign(v * v, v) != 0.0
  {
    SquareFacts(v);
  }

  /** Products of non-negative reals keep the order of their factors. */
  lemma MulMonotone(a: real, b: real, c: real)
    requires 0.0 <= a && b <= c
    ensures a * b <= a * c
  {
    assert a * c - a * b == a * (c - b);
  }

  /** A value of magnitude at most b has a square at most b * b. */
  lemma SquareAtMost(v: real, b: real)
    requires Abs(v) <= b
    ensures v * v <= b * b
  {
    var m := Abs(v);
    var vv, mm, mb, bb := v * v, m * m, m * b, b * b;
    assert vv == mm;
    MulMonotone(m, m, b);
    assert mm <= mb;
    MulMonotone(b, m, b);
    assert b * m == mb;
    assert mb <= bb;
  }

  lemma MulPositive(a: real, b: real)
    requires 0.0 < a && 0.0 < b
    ensures 0.0 < a * b
  {
  }

  lemma SquareFacts(v: real)
    ensures v * v >= 0.0
    ensures v == 0.0 ==> v * v == 0.0
    ensures v != 0.0 ==> v * v > 0.0
    ensures -1.0 <= v <= 1.0 ==> v * v <= 1.0
  {
    var sq := v * v;
    if v > 0.0 {
      MulPositive(v, v);
      if v <= 1.0 { MulMonotone(v, v, 1.0); }
    } else if v < 0.0 {
      var w := -v;
      assert w * w == sq;
      MulPositive(w, w);
      if w <= 1.0 { MulMonotone(w, w, 1.0); }
    } else {
      assert sq == 0.0;
    }
  }

  /** The throttle's shaping: clamp, deadband with rescaling, signed square. */
  function ShapeAxis(v: real): (r: real)
    ensures -1.0 <= r <= 1.0
    ensures (r == 0.0) <==> Abs(Unit(v)) <= DeadbandWidth
    ensures (r > 0.0) <==> Unit(v) > DeadbandWidth
  {
    SignedSquare(DeadbandRescale(Unit(v)))
  }

  /** Both axes after shaping, as the code computes them: when the rotation
      lies inside the deadband it is the THROTTLE that is zeroed, and the
      rotation goes into the square without rescaling. */
  function Shape(throttle: real, rotation: real): Shaped
  {
    var x := ShapeAxis(throttle);
    var z := Unit(rotation);
    if Abs(z) > DeadbandWidth then Shaped(x, SignedSquare(Rescale(z)))
    else Shaped(0.0, SignedSquare(z))
  }

  /** Quadrant mixing: the left side is pinned to 1.0 when the two shaped axes
      have the same sign (zero counted as non-negative), the right side
      otherwise. */
  function Quadrant(x: real, z: real): (o: Outputs)
    ensures (x >= 0.0) == (z >= 0.0) ==> o == Outputs(1.0, x - z)
    ensures (x >= 0.0) != (z >= 0.0) ==> o == Outputs(x + z, 1.0)
  {
    if x >= 0.0 then
      if z >= 0.0 then Outputs(1.0, x - z) else Outputs(x + z, 1.0)
    else
      if z >= 0.0 then Outputs(x + z, 1.0) else Outputs(1.0, x - z)
  }

  /** The velocity setpoints arcadeDriveVelocity issues for one joystick sample. */
  function Mix(throttle: real, rotation: real): (o: Outputs)
    ensures -MaxVelocityTicks <= o.left <= MaxVelocityTicks
    ensures -MaxVelocityTicks <= o.right <= MaxVelocityTicks
  {
    ShapeFacts(throttle, rotation);
    var s := Shape(throttle, rotation);
    var q := Quadrant(s.xSpeed, s.zRotation);
    Outputs(Unit(q.left) * MaxVelocityTicks, Unit(q.right) * MaxVelocityTicks)
  }

  /** Outside the rotation deadband both axes go through the same curve;
      inside it the throttle is lost and the rotation is squared unrescaled.
      Both shaped axes lie in [-1, 1], and a zero rotation means a zero
      throttle. */
  lemma ShapeFacts(throttle: real, rotation: real)
    ensures var s := Shape(throttle, rotation);
      && -1.0 <= s.xSpeed <= 1.0 && -1.0 <= s.zRotation <= 1.0
      && (Abs(Unit(rotation)) > DeadbandWidth ==>
            s.xSpeed == ShapeAxis(throttle) && s.zRotation == ShapeAxis(rotation))
      && (Abs(Unit(rotation)) <= DeadbandWidth ==>
            s.xSpeed == 0.0 && s.zRotation == SignedSquare(Unit(rotation)))
      && (s.zRotation == 0.0 ==> s.xSpeed == 0.0)
  {
  }

  /** The shaping half of arcadeDriveVelocity: each stick is clamped, put
      through the deadband and squared by reassigning xSpeed and zRotation in
      place, and the rotation's deadband branch clears xSpeed. */
  method ShapeSticks(throttle: real, rotation: real) returns (xSpeed: real, zRotation: real)
    ensures Shaped(xSpeed, zRotation) == Shape(throttle, rotation)
  {
    xSpeed := throttle;
    zRotation := rotation;

    xSpeed := Clamp(xSpeed, -1.0, 1.0);
    if Abs(xSpeed) > DeadbandWidth {
      xSpeed := Rescale(xSpeed);
    } else {
      xSpeed := 0.0;
    }
    ShapeAxisSteps(throttle, xSpeed);
    xSpeed := CopySign(xSpeed * xSpeed, xSpeed);

    zRotation := Clamp(zRotation, -1.0, 1.0);
    if Abs(zRotation) > DeadbandWidth {
      zRotation := Rescale(zRotation);
    } else {
      xSpeed := 0.0;
    }
    ShapeSteps(throttle, rotation, xSpeed, zRotation);
    zRotation := CopySign(zRotation * zRotation, zRotation);
  }

  /** The quadrant rule of arcadeDriveVelocity, written as nested branches on
      the signs of the shaped throttle and rotation. */
  method QuadrantOutputs(xSpeed: real, zRotation: real) returns (leftOutput: real, rightOutput: real)
    ensures Outputs(leftOutput, rightOutput) == Quadrant(xSpeed, zRotation)
  {
    if xSpeed >= 0.0 {
      // Non-negative throttle: the left side is pinned unless the rotation is negative.
      if zRotation >= 0.0 {
        leftOutput := 1.0;
        rightOutput := xSpeed - zRotation;
      } else {
        leftOutput := xSpeed + zRotation;
        rightOutput := 1.0;
      }
    } else {
      // Negative throttle: the left side is pinned when the rotation is negative too.
      if zRotation >= 0.0 {
        leftOutput := xSpeed + zRotation;
        rightOutput := 1.0;
      } else {
        leftOutput := 1.0;
        rightOutput := xSpeed - zRotation;
      }
    }
  }

  /** The throttle after its deadband step goes through the signed square. */
  lemma ShapeAxisSteps(throttle: real, x: real)
    requires x == DeadbandRescale(Unit(throttle))
    ensures CopySign(x * x, x) == ShapeAxis(throttle)
  {
    assert ShapeAxis(throttle) == SignedSquare(x);
  }

  /** Shape outside the rotation deadband, from the two axes as they stand
      just before the rotation is squared. */
  lemma ShapeOutsideRotationDeadband(throttle: real, rotation: real, x: real, z: real)
    requires Abs(Unit(rotation)) > DeadbandWidth
    requires x == ShapeAxis(throttle) && z == Rescale(Unit(rotation))
    ensures Shape(throttle, rotation) == Shaped(x, CopySign(z * z, z))
  {
    assert SignedSquare(z) == CopySign(z * z, z);
  }

  /** Shape inside the rotation deadband, from the two axes as they stand
      just before the rotation is squared. */
  lemma ShapeInsideRotationDeadband(throttle: real, rotation: real, z: real)
    requires Abs(Unit(rotation)) <= DeadbandWidth && z == Unit(rotation)
    ensures Shape(throttle, rotation) == Shaped(0.0, CopySign(z * z, z))
  {
    assert SignedSquare(z) == CopySign(z * z, z);
  }

  /** Shape from the two axes as they stand just before the rotation is
      squared. */
  lemma ShapeSteps(throttle: real, rotation: real, x: real, z: real)
    requires Abs(Unit(rotation)) > DeadbandWidth ==>
               x == ShapeAxis(throttle) && z == Rescale(Unit(rotation))
    requires Abs(Unit(rotation)) <= DeadbandWidth ==> x == 0.0 && z == Unit(rotation)
    ensures Shape(throttle, rotation) == Shaped(x, CopySign(z * z, z))
  {
    if Abs(Unit(rotation)) > DeadbandWidth {
      ShapeOutsideRotationDeadband(throttle, rotation, x, z);
    } else {
      ShapeInsideRotationDeadband(throttle, rotation, z);
    }
  }

  /** Mix spelled out from the shaped axes and the quadrant outputs. */
  lemma MixSteps(throttle: real, rotation: real, x: real, z: real, left: real, right: real)
    requires Shape(throttle, rotation) == Shaped(x, z)
    requires Quadrant(x, z) == Outputs(left, right)
    ensures Mix(throttle, rotation)
         == Outputs(Unit(left) * MaxVelocityTicks, Unit(right) * MaxVelocityTicks)
  {
  }

  // ---------------------------------------------------------------------------
  // Shaping of a single axis

  /** Outside the deadband on the positive side the curve is the square of the
      rescaled value, in (0, 1]. */
  lemma ShapeAxisPositive(v: real)
    requires DeadbandWidth < Unit(v)
    ensures ShapeAxis(v) == ((Unit(v) - DeadbandWidth) / (1.0 - DeadbandWidth))
                          * ((Unit(v) - DeadbandWidth) / (1.0 - DeadbandWidth))
    ensures 0.0 < ShapeAxis(v) <= 1.0
  {
  }

  lemma UnitOdd(v: real)
    ensures Unit(-v) == -Unit(v)
  {
  }

  lemma DeadbandRescaleOdd(v: real)
    ensures DeadbandRescale(-v) == -DeadbandRescale(v)
  {
    if Abs(v) > DeadbandWidth {
      assert Rescale(-v) == -Rescale(v);
    }
  }

  lemma SignedSquareOdd(v: real)
    ensures SignedSquare(-v) == -SignedSquare(v)
  {
    assert (-v) * (-v) == v * v;
  }

  /** The curve is odd: a negative input gives the negated mirror. */
  lemma ShapeAxisOdd(v: real)
    ensures ShapeAxis(-v) == -ShapeAxis(v)
  {
    UnitOdd(v);
    DeadbandRescaleOdd(Unit(v));
    SignedSquareOdd(DeadbandRescale(Unit(v)));
  }

  /** Inputs beyond full scale behave exactly like full scale, and full scale
      maps to full scale. */
  lemma ShapeAxisSaturates(v: real)
    ensures 1.0 <= v ==> ShapeAxis(v) == 1.0
    ensures v <= -1.0 ==> ShapeAxis(v) == -1.0
    ensures ShapeAxis(v) == ShapeAxis(Unit(v))
  {
  }

  /** On the positive side outside the deadband the curve is strictly increasing. */
  lemma ShapeAxisStrictlyIncreasing(a: real, b: real)
    requires DeadbandWidth < a < b <= 1.0
    ensures ShapeAxis(a) < ShapeAxis(b)
  {
    var ra, rb := Rescale(a), Rescale(b);
    assert 0.0 < ra < rb;
    SquareStrictlyIncreasing(ra, rb);
  }

  lemma SquareStrictlyIncreasing(p: real, q: real)
    requires 0.0 <= p < q
    ensures p * p < q * q
  {
    var pp, pq, qq := p * p, p * q, q * q;
    assert pp <= pq;
    assert pq < qq;
  }

  /** Over all reals the curve never decreases. */
  lemma ShapeAxisMonotone(a: real, b: real)
    requires a <= b
    ensures ShapeAxis(a) <= ShapeAxis(b)
  {
    var ca, cb := Unit(a), Unit(b);
    assert ca <= cb;
    if ca > DeadbandWidth {
      if ca < cb { ShapeAxisStrictlyIncreasing(ca, cb); }
      ShapeAxisSaturates(a);
      ShapeAxisSaturates(b);
    } else if cb < -DeadbandWidth {
      if ca < cb { ShapeAxisStrictlyIncreasing(-cb, -ca); }
      ShapeAxisOdd(ca);
      ShapeAxisOdd(cb);
      ShapeAxisSaturates(a);
      ShapeAxisSaturates(b);
      ShapeAxisSaturates(-ca);
      ShapeAxisSaturates(-cb);
    } else {
      assert ShapeAxis(a) <= 0.0 <= ShapeAxis(b);
    }
  }

  // ---------------------------------------------------------------------------
  // Deadbands

  /** A throttle inside the deadband leaves no throttle. */
  lemma ThrottleDeadband(throttle: real, rotation: real)
    requires Abs(Unit(throttle)) <= DeadbandWidth
    ensures Shape(throttle, rotation).xSpeed == 0.0
  {
  }

  /** A rotation inside the deadband also leaves no throttle, whatever the
      throttle, and the rotation is squared without rescaling, so it stays
      within [-0.04, 0.04]. */
  lemma RotationDeadbandQuirk(throttle: real, rotation: real)
    requires Abs(Unit(rotation)) <= DeadbandWidth
    ensures Shape(throttle, rotation).xSpeed == 0.0
    ensures Shape(throttle, rotation).zRotation == SignedSquare(Unit(rotation))
    ensures -0.04 <= Shape(throttle, rotation).zRotation <= 0.04
  {
    var z := Unit(rotation);
    SquareAtMost(z, DeadbandWidth);
    assert DeadbandWidth * DeadbandWidth == 0.04;
  }

  /** Whatever the throttle, a centred rotation stick drives the left side
      alone, at full velocity. */
  lemma CentredRotationMix(throttle: real)
    ensures Mix(throttle, 0.0) == Outputs(MaxVelocityTicks, 0.0)
  {
    assert Unit(0.0) == 0.0;
    assert SignedSquare(0.0) == 0.0;
    assert Shape(throttle, 0.0) == Shaped(0.0, 0.0);
    assert Quadrant(0.0, 0.0) == Outputs(1.0, 0.0);
  }

  /** Full rotation alone spins the robot on the spot. */
  lemma FullRotationNoThrottle()
    ensures Mix(0.0, 1.0) == Outputs(MaxVelocityTicks, -MaxVelocityTicks)
  {
    assert Rescale(1.0) == 1.0;
    assert SignedSquare(1.0) == 1.0;
    assert ShapeAxis(0.0) == 0.0;
    assert Shape(0.0, 1.0) == Shaped(0.0, 1.0);
    assert Quadrant(0.0, 1.0) == Outputs(1.0, -1.0);
  }

  // ---------------------------------------------------------------------------
  // Mixing

  /** Exactly one side is pinned to full velocity: the left one when the shaped
      throttle and rotation agree in sign (zero counted as non-negative), the
      right one otherwise.  The other side is the clamped difference or sum. */
  lemma MixPinsOneSide(throttle: real, rotation: real)
    ensures var s, o := Shape(throttle, rotation), Mix(throttle, rotation);
      if (s.xSpeed >= 0.0) == (s.zRotation >= 0.0) then
        o.left == MaxVelocityTicks && o.right < MaxVelocityTicks
        && o.right == Unit(s.xSpeed - s.zRotation) * MaxVelocityTicks
      else
        o.right == MaxVelocityTicks && o.left < MaxVelocityTicks
        && o.left == Unit(s.xSpeed + s.zRotation) * MaxVelocityTicks
  {
    ShapeFacts(throttle, rotation);
    var s := Shape(throttle, rotation);
    var x, z := s.xSpeed, s.zRotation;
    if (x >= 0.0) == (z >= 0.0) {
      assert x - z < 1.0;
    } else {
      assert x + z < 1.0;
    }
  }

  /** The one-side-pinned rule as a plain "exactly one" statement. */
  lemma MixExactlyOnePinned(throttle: real, rotation: real)
    ensures var o := Mix(throttle, rotation);
      (o.left == MaxVelocityTicks) != (o.right == MaxVelocityTicks)
  {
    MixPinsOneSide(throttle, rotation);
  }

  /** Inputs beyond full scale are mixed exactly like full scale. */
  lemma MixClampsInputs(throttle: real, rotation: real)
    ensures Mix(throttle, rotation) == Mix(Unit(throttle), Unit(rotation))
  {
    ShapeAxisSaturates(throttle);
    ShapeAxisSaturates(rotation);
  }

  /** Outside both deadbands, negating the sticks negates both shaped axes. */
  lemma ShapeNegated(throttle: real, rotation: real)
    requires Abs(Unit(throttle)) > DeadbandWidth && Abs(Unit(rotation)) > DeadbandWidth
    ensures var s := Shape(throttle, rotation);
      Shape(-throttle, -rotation) == Shaped(-s.xSpeed, -s.zRotation)
      && s.xSpeed != 0.0 && s.zRotation != 0.0
  {
    ShapeFacts(throttle, rotation);
    ShapeFacts(-throttle, -rotation);
    ShapeAxisOdd(throttle);
    ShapeAxisOdd(rotation);
    UnitOdd(rotation);
  }

  /** Negating two non-zero shaped axes keeps the pinned side and negates the
      other one. */
  lemma QuadrantNegated(x: real, z: real)
    requires x != 0.0 && z != 0.0
    ensures var o, n := Quadrant(x, z), Quadrant(-x, -z);
      if (x >= 0.0) == (z >= 0.0) then n == Outputs(1.0, -o.right)
      else n == Outputs(-o.left, 1.0)
  {
  }

  /** Negating both sticks (both outside the deadband) keeps the same side
      pinned to full forward velocity and negates only the other side: the
      mixer is not point-symmetric. */
  lemma MixNegatedSticks(throttle: real, rotation: real)
    requires Abs(Unit(throttle)) > DeadbandWidth && Abs(Unit(rotation)) > DeadbandWidth
    ensures var o, n := Mix(throttle, rotation), Mix(-throttle, -rotation);
      (o.left == MaxVelocityTicks ==> n.left == MaxVelocityTicks && n.right == -o.right)
      && (o.right == MaxVelocityTicks ==> n.right == MaxVelocityTicks && n.left == -o.left)
  {
    var s := Shape(throttle, rotation);
    ShapeNegated(throttle, rotation);
    QuadrantNegated(s.xSpeed, s.zRotation);
    var q := Quadrant(s.xSpeed, s.zRotation);
    UnitOdd(q.left);
    UnitOdd(q.right);
    MixPinsOneSide(throttle, rotation);
  }

  /** When either stick lies inside its deadband the shaped throttle is 0, and
      the mixer is not even sign-consistent: negating both sticks swaps the
      two setpoints, so the pinned side moves from left to right or back.
      Which side is pinned follows the sign of the clamped rotation alone. */
  lemma MixNegatedInsideDeadband(throttle: real, rotation: real)
    requires Abs(Unit(throttle)) <= DeadbandWidth || Abs(Unit(rotation)) <= DeadbandWidth
    requires Unit(rotation) != 0.0
    ensures var o, n := Mix(throttle, rotation), Mix(-throttle, -rotation);
      n == Outputs(o.right, o.left)
      && (o.left == MaxVelocityTicks <==> Unit(rotation) > 0.0)
  {
    var z := NegatedShapeInsideDeadband(throttle, rotation);
    MixWithoutThrottle(throttle, rotation, z);
    MixWithoutThrottle(-throttle, -rotation, -z);
  }

  /** With no shaped throttle the rotation alone picks the pinned side: left
      for a non-negative rotation, right for a negative one. */
  lemma MixWithoutThrottle(throttle: real, rotation: real, z: real)
    requires Shape(throttle, rotation) == Shaped(0.0, z) && -1.0 <= z <= 1.0
    ensures z >= 0.0 ==> Mix(throttle, rotation) == Outputs(MaxVelocityTicks, -z * MaxVelocityTicks)
    ensures z < 0.0 ==> Mix(throttle, rotation) == Outputs(z * MaxVelocityTicks, MaxVelocityTicks)
  {
    var w := -z;
    assert Unit(1.0) == 1.0 && Unit(z) == z && Unit(w) == w;
    if z >= 0.0 {
      MixSteps(throttle, rotation, 0.0, z, 1.0, w);
    } else {
      MixSteps(throttle, rotation, 0.0, z, z, 1.0);
    }
  }

  /** With either stick inside its deadband, the shaped throttle is 0 for the
      sticks and for their negation, and the shaped rotation z is negated;
      z is non-zero, within [-1, 1], and has the sign of the clamped rotation. */
  lemma NegatedShapeInsideDeadband(throttle: real, rotation: real) returns (z: real)
    requires Abs(Unit(throttle)) <= DeadbandWidth || Abs(Unit(rotation)) <= DeadbandWidth
    requires Unit(rotation) != 0.0
    ensures Shape(throttle, rotation) == Shaped(0.0, z)
    ensures Shape(-throttle, -rotation) == Shaped(0.0, -z)
    ensures -1.0 <= z <= 1.0 && z != 0.0
    ensures z > 0.0 <==> Unit(rotation) > 0.0
  {
    var u := Unit(rotation);
    UnitOdd(rotation);
    UnitOdd(throttle);
    ShapeFacts(throttle, rotation);
    ShapeFacts(-throttle, -rotation);
    if Abs(u) <= DeadbandWidth {
      z := SignedSquare(u);
      SignedSquareOdd(u);
    } else {
      z := ShapeAxis(rotation);
      ShapeAxisOdd(rotation);
      ShapeAxisOdd(throttle);
    }
  }
}
