/** The control tick of main.c: the dt guard, tilt clamping and normalisation, the corner mixer,
    the spring-damper step of one servo, and the controller state (the file's globals) that a
    tick updates in place. */
module MainLoop {
  import opened Arduino

  /** The fixed servo range the suspension share is taken from (`totalRange`, never written). */
  const TotalRange: real := 180.0
  /** The hard safety bounds every servo position is forced into after a step. */
  const ServoMin: real := 0.0
  const ServoMax: real := 180.0
  /** The guarded step time: a non-positive step is replaced by DtMin, a long one by DtMax. */
  const DtMin: real := 0.001
  const DtMax: real := 0.05
  /** Roll and pitch are saturated at plus or minus this many degrees. */
  const MaxTilt: real := 30.0
  /** The interval the save handler saturates `share` into. */
  const ShareMin: real := 0.01
  const ShareMax: real := 1.0

  /** Position (degrees) and "velocity" of one servo treated as a spring. */
  datatype ServoState = ServoState(x: real, v: real)

  /** One value per corner: front left, front right, rear left, rear right. */
  datatype Corners<T> = Corners(fl: T, fr: T, rl: T, rr: T)

  /** Clamped roll and pitch in degrees and their normalised values. */
  datatype Tilt = Tilt(roll: real, pitch: real, normRoll: real, normPitch: real)

  /** The tunable suspension parameters with the derived travel range. */
  datatype Params = Params(
    offset: real, share: real, suspRange: real, suspHalf: real,
    kFront: real, cFront: real, kRear: real, cRear: real,
    frontBalance: real, rearBalance: real)

  /** The parameters main.c starts with. */
  const InitialParams: Params := Params(90.0, 0.25, 45.0, 22.5, 5.0, 1.5, 3.0, 1.2, 1.0, 0.8)

  /** The derived range agrees with the share it is derived from. */
  predicate RangeDerived(p: Params) {
    p.suspRange == TotalRange * p.share && p.suspHalf == p.suspRange / 2.0
  }

  predicate AllWithin(c: Corners<real>, lo: real, hi: real) {
    lo <= c.fl <= hi && lo <= c.fr <= hi && lo <= c.rl <= hi && lo <= c.rr <= hi
  }

  function Positions(s: Corners<ServoState>): Corners<real> {
    Corners(s.fl.x, s.fr.x, s.rl.x, s.rr.x)
  }

  /** Every corner at position `x` with zero velocity. */
  function AtRest(x: real): Corners<ServoState> {
    Corners(ServoState(x, 0.0), ServoState(x, 0.0), ServoState(x, 0.0), ServoState(x, 0.0))
  }

  // ----- dt guard -----

  /** The step time actually integrated with: a non-positive `dt` becomes DtMin and one above
      DtMax becomes DtMax; anything else is kept. */
  function EffectiveDt(dt: real): (h: real)
    ensures 0.0 < h <= DtMax
    ensures dt <= 0.0 ==> h == DtMin
    ensures DtMax < dt ==> h == DtMax
    ensures 0.0 < dt <= DtMax ==> h == dt
  {
    var d := if dt <= 0.0 then DtMin else dt;
    if d > DtMax then DtMax else d
  }

  /** The loop measures dt as a whole number of milliseconds over 1000, so the guarded step
      always lies in [DtMin, DtMax]. */
  lemma DtFromMillisInRange(elapsedMs: nat)
    ensures DtMin <= EffectiveDt(elapsedMs as real / 1000.0) <= DtMax
  {
    if elapsedMs > 0 {
      assert elapsedMs as real / 1000.0 >= DtMin;
    }
  }

  // ----- tilt -----

  /** Roll and pitch clamped to plus or minus MaxTilt degrees, then scaled into [-1, 1].
      The angles are whatever the accelerometer's `atan2` gave, in degrees. */
  function TiltFromAngles(angleX: real, angleY: real): (t: Tilt)
    ensures -MaxTilt <= t.roll <= MaxTilt && -MaxTilt <= t.pitch <= MaxTilt
    ensures -1.0 <= t.normRoll <= 1.0 && -1.0 <= t.normPitch <= 1.0
    ensures t.normRoll == t.roll / MaxTilt && t.normPitch == t.pitch / MaxTilt
    ensures -MaxTilt <= angleX <= MaxTilt ==> t.roll == angleX
    ensures -MaxTilt <= angleY <= MaxTilt ==> t.pitch == angleY
    ensures MaxTilt < angleX ==> t.normRoll == 1.0
    ensures angleX < -MaxTilt ==> t.normRoll == -1.0
    ensures MaxTilt < angleY ==> t.normPitch == 1.0
    ensures angleY < -MaxTilt ==> t.normPitch == -1.0
  {
    var roll := Constrain(angleX, -MaxTilt, MaxTilt);
    var pitch := Constrain(angleY, -MaxTilt, MaxTilt);
    Tilt(roll, pitch, Constrain(roll / MaxTilt, -1.0, 1.0), Constrain(pitch / MaxTilt, -1.0, 1.0))
  }

  // ----- corner mixer -----

  /** The per-corner mix: pitch scaled by the axle's balance, rear pitch inverted, roll
      subtracted on the left and added on the right, each saturated into [-1, 1]. */
  function CornerMix(normRoll: real, normPitch: real, frontBalance: real, rearBalance: real)
    : (m: Corners<real>)
    ensures AllWithin(m, -1.0, 1.0)
  {
    var pitchFront := normPitch * frontBalance;
    var pitchRear := normPitch * rearBalance;
    var rollSide := normRoll;
    Corners(
      Constrain(pitchFront - rollSide, -1.0, 1.0),
      Constrain(pitchFront + rollSide, -1.0, 1.0),
      Constrain(-pitchRear - rollSide, -1.0, 1.0),
      Constrain(-pitchRear + rollSide, -1.0, 1.0))
  }

  /** Full roll to one side with no pitch drops both left corners to the bottom of their travel
      and lifts both right corners to the top, whatever the balances. */
  lemma PureRollMix(frontBalance: real, rearBalance: real)
    ensures CornerMix(1.0, 0.0, frontBalance, rearBalance) == Corners(-1.0, 1.0, -1.0, 1.0)
    ensures CornerMix(-1.0, 0.0, frontBalance, rearBalance) == Corners(1.0, -1.0, 1.0, -1.0)
  {
  }

  /** With no roll the two corners of an axle move together, and the rear axle moves opposite
      to the front one. */
  lemma PurePitchMix(normPitch: real, frontBalance: real, rearBalance: real)
    ensures var m := CornerMix(0.0, normPitch, frontBalance, rearBalance);
      m.fl == m.fr == Constrain(normPitch * frontBalance, -1.0, 1.0) &&
      m.rl == m.rr == -Constrain(normPitch * rearBalance, -1.0, 1.0)
  {
    ConstrainOdd(normPitch * rearBalance, 1.0);
  }

  /** Reversing the roll swaps left and right. */
  lemma MirrorRoll(normRoll: real, normPitch: real, frontBalance: real, rearBalance: real)
    ensures var m := CornerMix(normRoll, normPitch, frontBalance, rearBalance);
      CornerMix(-normRoll, normPitch, frontBalance, rearBalance) == Corners(m.fr, m.fl, m.rr, m.rl)
  {
  }

  /** A mix in [-1, 1] maps to an absolute target inside the travel `offset +- suspHalf`. */
  function Target(mix: real, offset: real, suspHalf: real): (t: real)
    ensures 0.0 <= suspHalf && -1.0 <= mix <= 1.0 ==> offset - suspHalf <= t <= offset + suspHalf
    ensures mix == -1.0 ==> t == offset - suspHalf
    ensures mix == 1.0 ==> t == offset + suspHalf
    ensures mix == 0.0 ==> t == offset
  {
    ScaledWithin(mix, suspHalf);
    offset + mix * suspHalf
  }

  lemma ScaledWithin(m: real, half: real)
    ensures -1.0 <= m <= 1.0 && 0.0 <= half ==> -half <= m * half <= half
  {
    if -1.0 <= m <= 1.0 && 0.0 <= half {
      ProductNonNegative(1.0 - m, half);
      ProductNonNegative(1.0 + m, half);
      assert (1.0 - m) * half == half - m * half;
      assert (1.0 + m) * half == half + m * half;
    }
  }

  lemma ProductNonNegative(a: real, b: real)
    ensures 0.0 <= a && 0.0 <= b ==> 0.0 <= a * b
  {
  }

  /** The four absolute targets of a mix. */
  function CornerTargets(m: Corners<real>, offset: real, suspHalf: real): (t: Corners<real>)
    ensures 0.0 <= suspHalf && AllWithin(m, -1.0, 1.0) ==>
      AllWithin(t, offset - suspHalf, offset + suspHalf)
  {
    Corners(Target(m.fl, offset, suspHalf), Target(m.fr, offset, suspHalf),
            Target(m.rl, offset, suspHalf), Target(m.rr, offset, suspHalf))
  }

  /** The four targets of one tick for given raw angles. */
  function TickTargets(p: Params, angleX: real, angleY: real): (t: Corners<real>)
    ensures 0.0 <= p.suspHalf ==> AllWithin(t, p.offset - p.suspHalf, p.offset + p.suspHalf)
  {
    var tilt := TiltFromAngles(angleX, angleY);
    CornerTargets(CornerMix(tilt.normRoll, tilt.normPitch, p.frontBalance, p.rearBalance),
                  p.offset, p.suspHalf)
  }

  /** A level rig targets the rest offset at every corner. */
  lemma LevelTargets(p: Params)
    ensures TickTargets(p, 0.0, 0.0) == Corners(p.offset, p.offset, p.offset, p.offset)
  {
    var tilt := TiltFromAngles(0.0, 0.0);
    assert tilt.normRoll == 0.0 && tilt.normPitch == 0.0;
    assert CornerMix(0.0, 0.0, p.frontBalance, p.rearBalance) == Corners(0.0, 0.0, 0.0, 0.0);
  }

  /** Full roll targets the bottom of the travel on the left and the top on the right. */
  lemma PureRollTargets(p: Params, angleX: real)
    requires MaxTilt <= angleX
    ensures TickTargets(p, angleX, 0.0) ==
      Corners(p.offset - p.suspHalf, p.offset + p.suspHalf, p.offset - p.suspHalf, p.offset + p.suspHalf)
  {
    PureRollMix(p.frontBalance, p.rearBalance);
  }

  // ----- the spring-damper step -----

  /** The larger of two values. */
  function Max(a: real, b: real): (m: real)
    ensures a <= m && b <= m && (m == a || m == b)
  {
    if a < b then b else a
  }

  /** The smaller of two values. */
  function Min(a: real, b: real): (m: real)
    ensures m <= a && m <= b && (m == a || m == b)
  {
    if a < b then a else b
  }

  /** One semi-implicit (symplectic) Euler step of a unit-mass spring-damper: the velocity
      first, then the position with the already updated velocity. */
  function Integrate(s: ServoState, target: real, dt: real, k: real, c: real): (f: ServoState) {
    var error := s.x - target;
    var force := -k * error - c * s.v;
    var v := s.v + force * dt;
    ServoState(s.x + v * dt, v)
  }

  /** The travel end-stops: an end-stop hit pins the position there and stops the servo. */
  function EndStops(s: ServoState, lo: real, hi: real): (r: ServoState)
    ensures lo <= s.x <= hi ==> r == s
    ensures s.x < lo <= hi ==> r == ServoState(lo, 0.0)
    ensures lo <= hi < s.x ==> r == ServoState(hi, 0.0)
    ensures lo <= hi ==> lo <= r.x <= hi
  {
    var s1 := if s.x < lo then ServoState(lo, 0.0) else s;
    if s1.x > hi then ServoState(hi, 0.0) else s1
  }

  /** The hard servo bounds: the position alone is clamped, the velocity is kept. */
  function SafetyClamp(s: ServoState): (r: ServoState)
    ensures r == ServoState(Constrain(s.x, ServoMin, ServoMax), s.v)
  {
    var x := if s.x < ServoMin then ServoMin else s.x;
    ServoState(if x > ServoMax then ServoMax else x, s.v)
  }

  /** A complete update of one servo: integrate, then the travel end-stops around `offset`,
      then the hard safety bounds. */
  function SpringStep(s: ServoState, target: real, dt: real, k: real, c: real,
                      offset: real, suspHalf: real): (r: ServoState)
    ensures ServoMin <= r.x <= ServoMax
    ensures var f := Integrate(s, target, dt, k, c);
      var lo := offset - suspHalf;
      var hi := offset + suspHalf;
      (f.x < lo || hi < f.x ==> r.v == 0.0) &&
      (lo <= f.x <= hi ==> r == ServoState(Constrain(f.x, ServoMin, ServoMax), f.v)) &&
      (f.x < lo <= hi ==> r == ServoState(Constrain(lo, ServoMin, ServoMax), 0.0)) &&
      (lo <= hi < f.x ==> r == ServoState(Constrain(hi, ServoMin, ServoMax), 0.0)) &&
      (ServoMin <= lo <= hi <= ServoMax ==> lo <= r.x <= hi) &&
      (lo <= hi && lo <= ServoMax && ServoMin <= hi ==>
         Max(lo, ServoMin) <= r.x <= Min(hi, ServoMax))
  {
    SafetyClamp(EndStops(Integrate(s, target, dt, k, c), offset - suspHalf, offset + suspHalf))
  }

  /** A servo resting at a reachable target stays there. */
  lemma SpringStepAtRest(target: real, dt: real, k: real, c: real, offset: real, suspHalf: real)
    requires offset - suspHalf <= target <= offset + suspHalf
    requires ServoMin <= target <= ServoMax
    ensures SpringStep(ServoState(target, 0.0), target, dt, k, c, offset, suspHalf) == ServoState(target, 0.0)
  {
  }

  // ----- one tick -----

  /** The new servo states after one tick: the front pair steps with the front coefficients,
      the rear pair with the rear ones, all with the guarded step time. */
  function TickServos(p: Params, s: Corners<ServoState>, dt: real, angleX: real, angleY: real)
    : (r: Corners<ServoState>)
    ensures AllWithin(Positions(r), ServoMin, ServoMax)
    ensures ServoMin <= p.offset - p.suspHalf <= p.offset + p.suspHalf <= ServoMax ==>
      AllWithin(Positions(r), p.offset - p.suspHalf, p.offset + p.suspHalf)
    ensures 0.0 <= p.suspHalf && p.offset - p.suspHalf <= ServoMax && ServoMin <= p.offset + p.suspHalf ==>
      AllWithin(Positions(r), Max(p.offset - p.suspHalf, ServoMin), Min(p.offset + p.suspHalf, ServoMax))
  {
    var h := EffectiveDt(dt);
    var t := TickTargets(p, angleX, angleY);
    Corners(
      SpringStep(s.fl, t.fl, h, p.kFront, p.cFront, p.offset, p.suspHalf),
      SpringStep(s.fr, t.fr, h, p.kFront, p.cFront, p.offset, p.suspHalf),
      SpringStep(s.rl, t.rl, h, p.kRear, p.cRear, p.offset, p.suspHalf),
      SpringStep(s.rr, t.rr, h, p.kRear, p.cRear, p.offset, p.suspHalf))
  }

  /** The front corners do not depend on the rear axle's stiffness, damping or balance. */
  lemma FrontIgnoresRearAxle(p: Params, s: Corners<ServoState>, dt: real, angleX: real, angleY: real,
                             k: real, c: real, b: real)
    ensures var r := TickServos(p, s, dt, angleX, angleY);
      var r' := TickServos(p.(kRear := k, cRear := c, rearBalance := b), s, dt, angleX, angleY);
      r'.fl == r.fl && r'.fr == r.fr
  {
    var p' := p.(kRear := k, cRear := c, rearBalance := b);
    var t := TickTargets(p, angleX, angleY);
    var t' := TickTargets(p', angleX, angleY);
    assert t'.fl == t.fl && t'.fr == t.fr;
  }

  /** The rear corners do not depend on the front axle's stiffness, damping or balance. */
  lemma RearIgnoresFrontAxle(p: Params, s: Corners<ServoState>, dt: real, angleX: real, angleY: real,
                             k: real, c: real, b: real)
    ensures var r := TickServos(p, s, dt, angleX, angleY);
      var r' := TickServos(p.(kFront := k, cFront := c, frontBalance := b), s, dt, angleX, angleY);
      r'.rl == r.rl && r'.rr == r.rr
  {
    var p' := p.(kFront := k, cFront := c, frontBalance := b);
    var t := TickTargets(p, angleX, angleY);
    var t' := TickTargets(p', angleX, angleY);
    assert t'.rl == t.rl && t'.rr == t.rr;
  }

  /** A level rig at rest at its offset stays there for one tick. */
  lemma LevelTickKeepsRest(p: Params, dt: real)
    requires 0.0 <= p.suspHalf
    requires ServoMin <= p.offset <= ServoMax
    ensures TickServos(p, AtRest(p.offset), dt, 0.0, 0.0) == AtRest(p.offset)
  {
    LevelTargets(p);
    var h := EffectiveDt(dt);
    SpringStepAtRest(p.offset, h, p.kFront, p.cFront, p.offset, p.suspHalf);
    SpringStepAtRest(p.offset, h, p.kRear, p.cRear, p.offset, p.suspHalf);
  }

  /** The sensor angles and step time fed to one tick. */
  datatype TickInput = TickInput(dt: real, angleX: real, angleY: real)

  /** The servo states after running the ticks `ins` in order under fixed parameters. */
  function RunTicks(p: Params, s: Corners<ServoState>, ins: seq<TickInput>): (r: Corners<ServoState>)
    ensures |ins| > 0 ==> AllWithin(Positions(r), ServoMin, ServoMax)
    ensures AllWithin(Positions(s), ServoMin, ServoMax) ==> AllWithin(Positions(r), ServoMin, ServoMax)
    decreases |ins|
  {
    if |ins| == 0 then s
    else RunTicks(p, TickServos(p, s, ins[0].dt, ins[0].angleX, ins[0].angleY), ins[1..])
  }

  /** A level rig that starts at rest stays at rest, whatever the step times. */
  lemma {:induction false} LevelRigStaysAtRest(p: Params, ins: seq<TickInput>)
    requires 0.0 <= p.suspHalf
    requires ServoMin <= p.offset <= ServoMax
    requires forall i :: 0 <= i < |ins| ==> ins[i].angleX == 0.0 && ins[i].angleY == 0.0
    ensures RunTicks(p, AtRest(p.offset), ins) == AtRest(p.offset)
    decreases |ins|
  {
    if |ins| > 0 {
      LevelTickKeepsRest(p, ins[0].dt);
      LevelRigStaysAtRest(p, ins[1..]);
    }
  }

  /** When the travel fits inside the servo range, a rig that starts inside its travel never
      leaves it, whatever the tilt and the step times: end-stops are never overshot. */
  lemma {:induction false} RunTicksStayInTravel(p: Params, s: Corners<ServoState>, ins: seq<TickInput>)
    requires ServoMin <= p.offset - p.suspHalf <= p.offset + p.suspHalf <= ServoMax
    requires AllWithin(Positions(s), p.offset - p.suspHalf, p.offset + p.suspHalf)
    ensures AllWithin(Positions(RunTicks(p, s, ins)), p.offset - p.suspHalf, p.offset + p.suspHalf)
    decreases |ins|
  {
    if |ins| > 0 {
      RunTicksStayInTravel(p, TickServos(p, s, ins[0].dt, ins[0].angleX, ins[0].angleY), ins[1..]);
    }
  }

  /** The integer each servo is written: the truncated position, inside [0, 180] because
      every position is. */
  function ServoCommands(s: Corners<ServoState>): (cmd: Corners<int>)
    ensures AllWithin(Positions(s), ServoMin, ServoMax) ==>
      0 <= cmd.fl <= 180 && 0 <= cmd.fr <= 180 && 0 <= cmd.rl <= 180 && 0 <= cmd.rr <= 180
    ensures 0.0 <= s.fl.x ==> cmd.fl as real <= s.fl.x < cmd.fl as real + 1.0
    ensures 0.0 <= s.fr.x ==> cmd.fr as real <= s.fr.x < cmd.fr as real + 1.0
    ensures 0.0 <= s.rl.x ==> cmd.rl as real <= s.rl.x < cmd.rl as real + 1.0
    ensures 0.0 <= s.rr.x ==> cmd.rr as real <= s.rr.x < cmd.rr as real + 1.0
  {
    TruncWithin(s.fl.x, 0, 180);
    TruncWithin(s.fr.x, 0, 180);
    TruncWithin(s.rl.x, 0, 180);
    TruncWithin(s.rr.x, 0, 180);
    Corners(TruncToInt(s.fl.x), TruncToInt(s.fr.x), TruncToInt(s.rl.x), TruncToInt(s.rr.x))
  }

  // ----- the controller state -----

  /** `struct SpringServo`: one servo's position and velocity, updated in place. */
  class SpringServo {
    var x: real
    var v: real

    constructor (x0: real, v0: real)
      ensures x == x0 && v == v0
    {
      x, v := x0, v0;
    }

    function State(): ServoState
      reads this
    {
      ServoState(x, v)
    }
  }

  /** The globals of main.c: the parameters shared with the web handler and the four servos. */
  class Controller {
    var offset: real
    var share: real
    var suspRange: real
    var suspHalf: real
    var kFront: real
    var cFront: real
    var kRear: real
    var cRear: real
    var frontBalance: real
    var rearBalance: real
    const sFL: SpringServo
    const sFR: SpringServo
    const sRL: SpringServo
    const sRR: SpringServo

    function Snapshot(): Params
      reads this
    {
      Params(offset, share, suspRange, suspHalf, kFront, cFront, kRear, cRear, frontBalance, rearBalance)
    }

    function Servos(): Corners<ServoState>
      reads sFL, sFR, sRL, sRR
    {
      Corners(sFL.State(), sFR.State(), sRL.State(), sRR.State())
    }

    /** Four distinct servos, a derived range that is never stale, a share inside the interval
        the save handler enforces, and every servo inside its hard bounds. */
    ghost predicate Valid()
      reads this, sFL, sFR, sRL, sRR
    {
      sFL != sFR && sFL != sRL && sFL != sRR && sFR != sRL && sFR != sRR && sRL != sRR &&
      RangeDerived(Snapshot()) &&
      ShareMin <= share <= ShareMax &&
      AllWithin(Positions(Servos()), ServoMin, ServoMax)
    }

    /** The initialisers of the globals and `setup`'s servo state: every corner at the offset,
        at rest. */
    constructor ()
      ensures Valid()
      ensures Snapshot() == InitialParams
      ensures Servos() == AtRest(InitialParams.offset)
      ensures fresh(sFL) && fresh(sFR) && fresh(sRL) && fresh(sRR)
    {
      offset := 90.0;
      share := 0.25;
      suspRange := TotalRange * 0.25;
      suspHalf := TotalRange * 0.25 / 2.0;
      kFront := 5.0;
      cFront := 1.5;
      kRear := 3.0;
      cRear := 1.2;
      frontBalance := 1.0;
      rearBalance := 0.8;
      sFL := new SpringServo(90.0, 0.0);
      sFR := new SpringServo(90.0, 0.0);
      sRL := new SpringServo(90.0, 0.0);
      sRR := new SpringServo(90.0, 0.0);
    }

    /** `updateSuspensionRange`: recompute the travel from the current share. */
    method UpdateSuspensionRange()
      modifies this`suspRange, this`suspHalf
      ensures RangeDerived(Snapshot())
      ensures Snapshot() == old(Snapshot()).(suspRange := suspRange, suspHalf := suspHalf)
    {
      suspRange := TotalRange * share;
      suspHalf := suspRange / 2.0;
    }

    /** `updateSpringServo`: advance one servo in place with the current travel. */
    method UpdateSpringServo(s: SpringServo, target: real, dt: real, k: real, c: real)
      modifies s
      ensures s.State() == SpringStep(old(s.State()), target, dt, k, c, offset, suspHalf)
    {
      ghost var before := s.State();
      var error := s.x - target;
      var force := -k * error - c * s.v;
      var a := force;
      s.v := s.v + a * dt;
      s.x := s.x + s.v * dt;
      ghost var free := s.State();
      assert free == Integrate(before, target, dt, k, c);
      var minPos := offset - suspHalf;
      var maxPos := offset + suspHalf;
      if s.x < minPos { s.x := minPos; s.v := 0.0; }
      if s.x > maxPos { s.x := maxPos; s.v := 0.0; }
      assert s.State() == EndStops(free, minPos, maxPos);
      if s.x < ServoMin { s.x := ServoMin; }
      if s.x > ServoMax { s.x := ServoMax; }
    }

    /** `loop`: guard dt, turn the angles into four targets, step the four servos in place and
        return the integers written to the servos. */
    method Loop(dt: real, angleX: real, angleY: real) returns (cmd: Corners<int>)
      requires Valid()
      modifies sFL, sFR, sRL, sRR
      ensures Valid()
      ensures Servos() == TickServos(Snapshot(), old(Servos()), dt, angleX, angleY)
      ensures cmd == ServoCommands(Servos())
    {
      var h := EffectiveDt(dt);
      var tilt := TiltFromAngles(angleX, angleY);
      var mix := CornerMix(tilt.normRoll, tilt.normPitch, frontBalance, rearBalance);
      var target := CornerTargets(mix, offset, suspHalf);
      UpdateSpringServo(sFL, target.fl, h, kFront, cFront);
      UpdateSpringServo(sFR, target.fr, h, kFront, cFront);
      UpdateSpringServo(sRL, target.rl, h, kRear, cRear);
      UpdateSpringServo(sRR, target.rr, h, kRear, cRear);
      cmd := Corners(TruncToInt(sFL.x), TruncToInt(sFR.x), TruncToInt(sRL.x), TruncToInt(sRR.x));
    }
  }
}
