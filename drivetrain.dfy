/** The Drivetrain subsystem's own state: the two main motor controllers'
    encoder positions and slot-0 closed-loop gains, the four live-tunable
    dashboard entries driveP/I/D/F, and the last velocity setpoints sent to the
    two main controllers. */
module DrivetrainSubsystem {
  import opened ArcadeMixer

  /** Encoder ticks per wheel revolution. */
  const TicksPerRevolution: real := 4096.0

  /** Slot-0 closed-loop gains of one motor controller. */
  datatype Gains = Gains(kP: real, kI: real, kD: real, kF: real)

  /** The four dashboard entries. */
  datatype StoreKey = DriveP | DriveI | DriveD | DriveF

  /** The dashboard entries; a key that is absent is an entry with no value. */
  type Store = map<StoreKey, real>

  const AllKeys: set<StoreKey> := {DriveP, DriveI, DriveD, DriveF}

  /** Encoder ticks converted to metres of wheel travel: ticks / 4096 wheel
      revolutions, each one circumference long. */
  function TicksToMeters(ticks: int, wheelCircum: real): (m: real)
    ensures m * TicksPerRevolution == ticks as real * wheelCircum
  {
    ticks as real * (wheelCircum / TicksPerRevolution)
  }

  /** NetworkTableEntry.getDouble(0): the entry's value, or 0 when it has none. */
  function ReadEntry(store: Store, key: StoreKey): real
  {
    if key in store then store[key] else 0.0
  }

  /** The gains the four dashboard entries currently hold. */
  function StoreGains(store: Store): Gains
  {
    Gains(ReadEntry(store, DriveP), ReadEntry(store, DriveI),
          ReadEntry(store, DriveD), ReadEntry(store, DriveF))
  }

  /** The dashboard entries after setDouble on each of the four. */
  function PushGains(store: Store, g: Gains): (s: Store)
    ensures s.Keys == AllKeys
  {
    AllKeysComplete();
    store[DriveP := g.kP][DriveI := g.kI][DriveD := g.kD][DriveF := g.kF]
  }

  lemma AllKeysComplete()
    ensures forall k: StoreKey :: k in AllKeys
  {
    forall k: StoreKey ensures k in AllKeys {
      match k
      case DriveP =>
      case DriveI =>
      case DriveD =>
      case DriveF =>
    }
  }

  // ---------------------------------------------------------------------------
  // Distance conversion

  /** Distance is linear in the tick count. */
  lemma TicksToMetersLinear(a: int, b: int, k: int, wheelCircum: real)
    ensures TicksToMeters(a + b, wheelCircum)
         == TicksToMeters(a, wheelCircum) + TicksToMeters(b, wheelCircum)
    ensures TicksToMeters(k * a, wheelCircum) == k as real * TicksToMeters(a, wheelCircum)
    ensures TicksToMeters(0, wheelCircum) == 0.0
  {
    var u := wheelCircum / TicksPerRevolution;
    assert (a + b) as real * u == a as real * u + b as real * u;
    assert (k * a) as real == k as real * a as real;
    assert (k as real * a as real) * u == k as real * (a as real * u);
  }

  /** A wheel that turned a whole number of revolutions travelled that many
      circumferences, and the distance gives back the tick count. */
  lemma TicksToMetersRoundTrip(ticks: int, wheelCircum: real)
    requires wheelCircum != 0.0
    ensures TicksToMeters(ticks, wheelCircum) * TicksPerRevolution / wheelCircum == ticks as real
    ensures TicksToMeters(4096 * ticks, wheelCircum) == ticks as real * wheelCircum
  {
    var t, u := ticks as real, wheelCircum / TicksPerRevolution;
    assert u * TicksPerRevolution == wheelCircum;
    assert t * u * TicksPerRevolution == t * (u * TicksPerRevolution);
    TicksToMetersLinear(ticks, 0, 4096, wheelCircum);
    assert 4096.0 * (t * u) == t * (u * TicksPerRevolution);
  }

  // ---------------------------------------------------------------------------
  // Gain store

  /** Reading the store right after pushing gains into it gives those gains. */
  lemma PushThenReadGains(store: Store, g: Gains)
    ensures StoreGains(PushGains(store, g)) == g
  {
  }

  /** Pushing the gains read from the store changes no reading; it only gives a
      value, 0, to the entries that had none. */
  lemma PullPushKeepsReadings(store: Store)
    ensures StoreGains(PushGains(store, StoreGains(store))) == StoreGains(store)
    ensures forall k :: k in store ==> PushGains(store, StoreGains(store))[k] == store[k]
    ensures forall k :: k !in store ==> k in PushGains(store, StoreGains(store))
                                        && PushGains(store, StoreGains(store))[k] == 0.0
  {
    AllKeysComplete();
    PushThenReadGains(store, StoreGains(store));
  }

  /** Once every entry has a value, writing back what was read is a no-op. */
  lemma PullPushOnFullStore(store: Store)
    requires store.Keys == AllKeys
    ensures PushGains(store, StoreGains(store)) == store
  {
    var s := PushGains(store, StoreGains(store));
    assert s.Keys == store.Keys;
    forall k | k in store ensures s[k] == store[k] {
      PullPushKeepsReadings(store);
    }
  }

  class Drivetrain {
    /** Chassis.WHEEL_CIRCUM, in metres. */
    const wheelCircum: real
    /** Selected sensor positions of the left and right main controllers. */
    var leftTicks: int
    var rightTicks: int
    /** Slot-0 gains configured on the left and right main controllers. */
    var leftGains: Gains
    var rightGains: Gains
    /** The driveP/I/D/F dashboard entries. */
    var store: Store
    /** Velocity setpoints last sent to the left and right main controllers. */
    var leftSetpoint: real
    var rightSetpoint: real

    /** Both controllers run with the gains the dashboard shows. */
    ghost predicate GainsSynced()
      reads this
    {
      leftGains == rightGains == StoreGains(store)
    }

    /** The construction's only modelled effect: setPID with the configured
        constants, on a dashboard whose four entries have no value yet.  The
        encoders start wherever the hardware reports. */
    constructor (wheelCircum: real, initial: Gains, leftTicks: int, rightTicks: int)
      ensures this.wheelCircum == wheelCircum
      ensures this.leftTicks == leftTicks && this.rightTicks == rightTicks
      ensures leftGains == initial && rightGains == initial
      ensures store == PushGains(map[], initial) && StoreGains(store) == initial
      ensures leftSetpoint == 0.0 && rightSetpoint == 0.0
      ensures GainsSynced() && store.Keys == AllKeys
    {
      this.wheelCircum := wheelCircum;
      this.leftTicks := leftTicks;
      this.rightTicks := rightTicks;
      leftGains := initial;
      rightGains := initial;
      store := PushGains(map[], initial);
      leftSetpoint := 0.0;
      rightSetpoint := 0.0;
      new;
      PushThenReadGains(map[], initial);
    }

    /** getLeftDistance: metres travelled by the left wheels since the last reset. */
    function LeftDistance(): (d: real)
      reads this
      ensures d * TicksPerRevolution == leftTicks as real * wheelCircum
    {
      TicksToMeters(leftTicks, wheelCircum)
    }

    /** getRightDistance: metres travelled by the right wheels since the last reset. */
    function RightDistance(): (d: real)
      reads this
      ensures d * TicksPerRevolution == rightTicks as real * wheelCircum
    {
      TicksToMeters(rightTicks, wheelCircum)
    }

    /** getTotalDistance: the mean of the two sides. */
    function TotalDistance(): (d: real)
      reads this
      ensures Min(LeftDistance(), RightDistance()) <= d <= Max(LeftDistance(), RightDistance())
      ensures 2.0 * d == TicksToMeters(leftTicks + rightTicks, wheelCircum)
    {
      TicksToMetersLinear(leftTicks, rightTicks, 1, wheelCircum);
      (RightDistance() + LeftDistance()) / 2.0
    }

    method ResetDistance()
      modifies this
      ensures leftTicks == 0 && rightTicks == 0
      ensures LeftDistance() == 0.0 && RightDistance() == 0.0 && TotalDistance() == 0.0
      ensures leftGains == old(leftGains) && rightGains == old(rightGains)
      ensures store == old(store)
      ensures old(GainsSynced()) ==> GainsSynced()
      ensures leftSetpoint == old(leftSetpoint) && rightSetpoint == old(rightSetpoint)
    {
      leftTicks := 0;
      rightTicks := 0;
    }

    /** setPID(P, I, D, F): both controllers get the gains and the dashboard
        entries are set to them. */
    method SetPID(p: real, i: real, d: real, f: real)
      modifies this
      ensures leftGains == Gains(p, i, d, f) && rightGains == Gains(p, i, d, f)
      ensures store == PushGains(old(store), Gains(p, i, d, f))
      ensures StoreGains(store) == Gains(p, i, d, f) && GainsSynced()
      ensures leftTicks == old(leftTicks) && rightTicks == old(rightTicks)
      ensures leftSetpoint == old(leftSetpoint) && rightSetpoint == old(rightSetpoint)
    {
      leftGains := Gains(p, i, d, f);
      rightGains := Gains(p, i, d, f);
      store := store[DriveP := p][DriveI := i][DriveD := d][DriveF := f];
      PushThenReadGains(old(store), Gains(p, i, d, f));
    }

    /** setPID(): both controllers get the gains the dashboard shows (0 for an
        entry with no value), and those are written back. */
    method SetPIDFromStore()
      modifies this
      ensures leftGains == old(StoreGains(store)) && rightGains == old(StoreGains(store))
      ensures store == PushGains(old(store), old(StoreGains(store)))
      ensures StoreGains(store) == old(StoreGains(store)) && GainsSynced()
      ensures old(store.Keys) == AllKeys ==> store == old(store)
      ensures leftTicks == old(leftTicks) && rightTicks == old(rightTicks)
      ensures leftSetpoint == old(leftSetpoint) && rightSetpoint == old(rightSetpoint)
    {
      var p := ReadEntry(store, DriveP);
      var i := ReadEntry(store, DriveI);
      var d := ReadEntry(store, DriveD);
      var f := ReadEntry(store, DriveF);
      SetPID(p, i, d, f);
      if old(store.Keys) == AllKeys {
        PullPushOnFullStore(old(store));
      }
    }

    /** The scheduler's once-per-cycle hook: pull the gains from the dashboard. */
    method Periodic()
      modifies this
      ensures leftGains == old(StoreGains(store)) && rightGains == old(StoreGains(store))
      ensures store == PushGains(old(store), old(StoreGains(store)))
      ensures StoreGains(store) == old(StoreGains(store)) && GainsSynced()
      ensures old(store.Keys) == AllKeys ==> store == old(store)
      ensures leftTicks == old(leftTicks) && rightTicks == old(rightTicks)
      ensures leftSetpoint == old(leftSetpoint) && rightSetpoint == old(rightSetpoint)
    {
      SetPIDFromStore();
    }

    /** arcadeDriveVelocity: shape the sticks, mix them by quadrant, clamp and
        scale, then send the two velocity setpoints to the main controllers. */
    method ArcadeDriveVelocity(throttle: real, rotation: real)
      modifies this
      ensures Outputs(leftSetpoint, rightSetpoint) == Mix(throttle, rotation)
      ensures -MaxVelocityTicks <= leftSetpoint <= MaxVelocityTicks
      ensures -MaxVelocityTicks <= rightSetpoint <= MaxVelocityTicks
      ensures leftTicks == old(leftTicks) && rightTicks == old(rightTicks)
      ensures leftGains == old(leftGains) && rightGains == old(rightGains)
      ensures store == old(store)
      ensures old(GainsSynced()) ==> GainsSynced()
    {
      var xSpeed, zRotation := ShapeSticks(throttle, rotation);
      var leftOutput, rightOutput := QuadrantOutputs(xSpeed, zRotation);
      MixSteps(throttle, rotation, xSpeed, zRotation, leftOutput, rightOutput);

      leftOutput := Clamp(leftOutput, -1.0, 1.0) * MaxVelocityTicks;
      rightOutput := Clamp(rightOutput, -1.0, 1.0) * MaxVelocityTicks;

      leftSetpoint := leftOutput;
      rightSetpoint := rightOutput;
    }
  }

  /** setPID(P, I, D, F) followed by a scheduler cycle leaves the gains that were
      set on both controllers and on the dashboard, and a second cycle changes
      nothing at all.  afterFirst is the dashboard after the first cycle. */
  method SetPIDThenPeriodic(dt: Drivetrain, p: real, i: real, d: real, f: real)
    returns (ghost afterFirst: Store)
    modifies dt
    ensures afterFirst == PushGains(old(dt.store), Gains(p, i, d, f))
    ensures dt.store == afterFirst && StoreGains(dt.store) == Gains(p, i, d, f)
    ensures dt.leftGains == Gains(p, i, d, f) && dt.rightGains == Gains(p, i, d, f)
    ensures dt.leftTicks == old(dt.leftTicks) && dt.rightTicks == old(dt.rightTicks)
    ensures dt.leftSetpoint == old(dt.leftSetpoint) && dt.rightSetpoint == old(dt.rightSetpoint)
  {
    dt.SetPID(p, i, d, f);
    dt.Periodic();
    afterFirst := dt.store;
    dt.Periodic();
  }
}
