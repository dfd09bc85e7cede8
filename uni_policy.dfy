/** The arithmetic of the unicycle, as pure functions: the steering and crouch responses of one
    physics tick, the one-sided velocity correction of a rope, the fixed placement offsets and the
    key-log tables. The Unicycle module's methods are specified by these functions. */
module UniPolicy {
  import opened Vectors

  function Abs(x: real): real { if x < 0.0 then -x else x }

  /** JavaScript's conversion of a boolean flag to a number. */
  function Num(b: bool): int { if b then 1 else 0 }

  /** Math.sign on an integer. */
  function Sign(x: int): int { if x > 0 then 1 else if x < 0 then -1 else 0 }

  // ---------------------------------------------------------------- facing direction

  /** The facing direction after a turn. */
  function Turned(direction: int): (r: int)
    ensures (r == 1) <==> (direction == -1)
    ensures (r == -1) <==> (direction == 1)
    ensures (r == 0) <==> (direction == 0)
  {
    direction * -1
  }

  /** Two turns restore the facing direction. */
  lemma TurnTwice(direction: int)
    ensures Turned(Turned(direction)) == direction
  {
  }

  /** A turn keeps the direction a unit value and always changes it. */
  lemma TurnKeepsFacing(direction: int)
    requires direction == 1 || direction == -1
    ensures Turned(direction) == 1 || Turned(direction) == -1
    ensures Turned(direction) != direction
  {
  }

  // ---------------------------------------------------------------- lean and steering

  /** Base lean amount of one tick. */
  const LeanAmount: real := 10.0

  /** The smoothing speed passed to every lean call: 3 when up is released, 6 when held. */
  function LeanSpeed(up: bool): (r: real)
    ensures r == 3.0 || r == 6.0
    ensures (r == 6.0) <==> up
  {
    3.0 * (Num(up) + 1) as real
  }

  /** The steering input: leftPressed - rightPressed. */
  function RotateInput(left: bool, right: bool): (r: int)
    ensures -1 <= r <= 1
    ensures (r == 0) <==> (left == right)
    ensures (r == 1) <==> (left && !right)
  {
    Num(left) - Num(right)
  }

  /** Full steering response when the input agrees with the facing direction, 0.8 otherwise. */
  function DirFactor(rotate: int, direction: int): (r: real)
    ensures r == 1.0 || r == 0.8
    ensures (direction == 1 || direction == -1) && -1 <= rotate <= 1 ==>
              ((r == 1.0) <==> (rotate == direction))
  {
    if Sign(rotate) == direction then 1.0 else 0.8
  }

  /** The wheel speed that the steering input asks for. */
  function SpeedTarget(rotate: int, direction: int): (r: real)
    ensures rotate == 0 ==> r == 0.0
    ensures (direction == 1 || direction == -1) && -1 <= rotate <= 1 ==>
              -0.5 <= r <= 0.5 && (rotate == direction ==> r == 0.5) && (rotate == -direction ==> r == -0.4)
  {
    rotate as real * 0.5 * direction as real * DirFactor(rotate, direction)
  }

  /** One step of the wheel's speedValue towards `target`, closing a fifth of the gap. */
  function SmoothSpeed(speedValue: real, target: real): (r: real)
    ensures r - target == 0.8 * (speedValue - target)
    ensures speedValue <= target ==> speedValue <= r <= target
    ensures target <= speedValue ==> target <= r <= speedValue
  {
    speedValue + (target - speedValue) / 5.0
  }

  /** A wheel speed within [-0.5, 0.5] stays there whatever the input. */
  lemma SpeedStaysBounded(speedValue: real, left: bool, right: bool, direction: int)
    requires direction == 1 || direction == -1
    requires -0.5 <= speedValue <= 0.5
    ensures -0.5 <= SmoothSpeed(speedValue, SpeedTarget(RotateInput(left, right), direction)) <= 0.5
  {
  }

  /** The argument of the head-to-wheel rotate call. */
  function RotateAmount(rotate: int, direction: int, rotationFactor: real): (r: real)
    requires rotationFactor != 0.0
    ensures (r == 0.0) <==> (rotate == 0)
    ensures -1 <= rotate <= 1 && rotationFactor > 0.0 ==> -1.0 / rotationFactor <= r <= 1.0 / rotationFactor
  {
    rotate as real * DirFactor(rotate, direction) / rotationFactor
  }

  // ---------------------------------------------------------------- crouch

  /** The head-to-wheel length the crouch step aims at. */
  function CrouchTarget(lengthTowards: real, crouch: bool): (r: real)
    ensures !crouch ==> r == lengthTowards
    ensures lengthTowards >= 0.0 ==> 0.0 <= r <= lengthTowards
    ensures crouch && lengthTowards > 0.0 ==> r < lengthTowards
  {
    if crouch then lengthTowards * 0.8 else lengthTowards
  }

  /** One crouch step: the head-to-wheel length closes a quarter of its gap to the target. */
  function CrouchStep(len: real, lengthTowards: real, crouch: bool): (r: real)
    ensures Abs(r - CrouchTarget(lengthTowards, crouch)) == 0.75 * Abs(len - CrouchTarget(lengthTowards, crouch))
    ensures len <= CrouchTarget(lengthTowards, crouch) ==> len <= r <= CrouchTarget(lengthTowards, crouch)
    ensures CrouchTarget(lengthTowards, crouch) <= len ==> CrouchTarget(lengthTowards, crouch) <= r <= len
  {
    len + (CrouchTarget(lengthTowards, crouch) - len) * 0.25
  }

  function Pow(x: real, n: nat): real
  {
    if n == 0 then 1.0 else x * Pow(x, n - 1)
  }

  /** The head-to-wheel length after `n` consecutive crouch steps with the same input. */
  function CrouchAfter(len: real, lengthTowards: real, crouch: bool, n: nat): real
  {
    if n == 0 then len else CrouchStep(CrouchAfter(len, lengthTowards, crouch, n - 1), lengthTowards, crouch)
  }

  /** One crouch step scales the signed gap to the target by 0.75. */
  lemma CrouchStepGap(len: real, lengthTowards: real, crouch: bool)
    ensures CrouchStep(len, lengthTowards, crouch) - CrouchTarget(lengthTowards, crouch)
            == 0.75 * (len - CrouchTarget(lengthTowards, crouch))
  {
  }

  /** After n steps the signed gap to the target is 0.75^n times the initial gap. */
  lemma {:induction false} CrouchAfterGap(len: real, lengthTowards: real, crouch: bool, n: nat)
    ensures CrouchAfter(len, lengthTowards, crouch, n) - CrouchTarget(lengthTowards, crouch)
            == Pow(0.75, n) * (len - CrouchTarget(lengthTowards, crouch))
  {
    if n > 0 {
      CrouchAfterGap(len, lengthTowards, crouch, n - 1);
      var t := CrouchTarget(lengthTowards, crouch);
      var prev := CrouchAfter(len, lengthTowards, crouch, n - 1);
      var p := Pow(0.75, n - 1);
      CrouchStepGap(prev, lengthTowards, crouch);
      assert Pow(0.75, n) == 0.75 * p;
      assert 0.75 * (p * (len - t)) == (0.75 * p) * (len - t);
    }
  }

  /** The gap never grows from one step to the next. */
  lemma CrouchGapShrinks(len: real, lengthTowards: real, crouch: bool, n: nat)
    ensures Abs(CrouchAfter(len, lengthTowards, crouch, n + 1) - CrouchTarget(lengthTowards, crouch))
            <= Abs(CrouchAfter(len, lengthTowards, crouch, n) - CrouchTarget(lengthTowards, crouch))
  {
  }

  lemma {:induction false} PowBounds(n: nat)
    ensures 0.0 <= Pow(0.75, n) <= 1.0
  {
    if n > 0 {
      PowBounds(n - 1);
    }
  }

  /** Bernoulli's inequality for (4/3)^n, stated for 0.75^n. */
  lemma {:induction false} PowDecay(n: nat)
    ensures Pow(0.75, n) * (1.0 + n as real / 3.0) <= 1.0
  {
    if n > 0 {
      PowDecay(n - 1);
      PowBounds(n - 1);
      var q := Pow(0.75, n - 1);
      var m := (n - 1) as real;
      assert q * (1.0 + m / 3.0) <= 1.0;
      calc {
        Pow(0.75, n) * (1.0 + n as real / 3.0);
        0.75 * q * (1.0 + m / 3.0 + 1.0 / 3.0);
        0.75 * (q * (1.0 + m / 3.0)) + 0.25 * q;
      <= 0.75 * 1.0 + 0.25 * q;
      <= 1.0;
      }
    }
  }

  /** Holding the crouch input brings the length within `tol` of the target once
      n * tol >= 3 * (initial gap). */
  lemma CrouchConverges(len: real, lengthTowards: real, crouch: bool, tol: real, n: nat)
    requires tol > 0.0
    requires n as real * tol >= 3.0 * Abs(len - CrouchTarget(lengthTowards, crouch))
    ensures Abs(CrouchAfter(len, lengthTowards, crouch, n) - CrouchTarget(lengthTowards, crouch)) < tol
  {
    var t := CrouchTarget(lengthTowards, crouch);
    var q := Pow(0.75, n);
    CrouchAfterGap(len, lengthTowards, crouch, n);
    PowBounds(n);
    PowDecay(n);
    GeometricBelow(CrouchAfter(len, lengthTowards, crouch, n) - t, len - t, q, tol, n as real);
  }

  /** A gap g = q * x with q * (1 + n/3) <= 1 is below tol once n * tol >= 3|x|. */
  lemma GeometricBelow(g: real, x: real, q: real, tol: real, n: real)
    requires g == q * x && 0.0 <= q && q * (1.0 + n / 3.0) <= 1.0
    requires tol > 0.0 && n * tol >= 3.0 * Abs(x)
    ensures Abs(g) < tol
  {
    AbsOfScaled(q, x);
    TolBound(Abs(x), tol, n);
    ShrunkBelow(q, Abs(x), 1.0 + n / 3.0, tol);
  }

  lemma TolBound(e: real, tol: real, n: real)
    requires tol > 0.0 && n * tol >= 3.0 * e
    ensures e < tol * (1.0 + n / 3.0)
  {
    assert tol * (1.0 + n / 3.0) == tol + (n * tol) / 3.0;
  }

  lemma AbsOfScaled(q: real, x: real)
    requires q >= 0.0
    ensures Abs(q * x) == q * Abs(x)
  {
    if x < 0.0 {
      assert q * x == -(q * -x);
      assert q * -x >= 0.0;
    } else {
      assert q * x >= 0.0;
    }
  }

  lemma ShrunkBelow(q: real, e: real, k: real, tol: real)
    requires 0.0 <= q && 0.0 <= e && k > 0.0
    requires q * k <= 1.0
    requires e < tol * k
    ensures q * e < tol
  {
    assert (q * k) * e <= e;
    assert (q * e) * k < tol * k;
  }

  // ---------------------------------------------------------------- rope

  /** The correction a rope adds to its first mass's velocity when the masses are `length` apart
      along `delta` (from the first to the second) and move with relative velocity `relVel`: the
      spring force along the unit axis plus half the damping term along the same axis. */
  function RopeForce(delta: Vec, relVel: Vec, length: real,
                     restLength: real, springConstant: real, dampConstant: real): (r: Vec)
    requires length >= 1.0
    ensures springConstant == 0.0 && dampConstant == 0.0 ==> r == Vec(0.0, 0.0)
    ensures delta == Vec(0.0, 0.0) ==> r == Vec(0.0, 0.0)
  {
    var axis := Scale(delta, 1.0 / length);
    var force := Scale(axis, (length - restLength) * springConstant);
    var normalVelocity := Dot(relVel, axis) * dampConstant;
    Add(force, Scale(axis, normalVelocity * 0.5))
  }

  /** The rope's correction points along the rope; without damping its component along `delta`
      is the spring term times the separation. */
  lemma RopeForceAlongAxis(delta: Vec, relVel: Vec, length: real,
                           restLength: real, springConstant: real, dampConstant: real)
    requires length >= 1.0
    ensures Cross(RopeForce(delta, relVel, length, restLength, springConstant, dampConstant), delta) == 0.0
    ensures springConstant == 0.0 && dampConstant == 0.0 ==>
              RopeForce(delta, relVel, length, restLength, springConstant, dampConstant) == Vec(0.0, 0.0)
    ensures length * length == Dot(delta, delta) && dampConstant == 0.0 ==>
              Dot(RopeForce(delta, relVel, length, restLength, springConstant, dampConstant), delta)
              == (length - restLength) * springConstant * length
  {
    var s := 1.0 / length;
    var m := (length - restLength) * springConstant;
    var h := Dot(relVel, Scale(delta, s)) * dampConstant * 0.5;
    var f := RopeForce(delta, relVel, length, restLength, springConstant, dampConstant);
    assert f == Scale(delta, s * (m + h));
    assert Cross(f, delta) == s * (m + h) * (delta.x * delta.y - delta.y * delta.x);
    if springConstant == 0.0 && dampConstant == 0.0 {
      assert m == 0.0 && h == 0.0;
    }
    if length * length == Dot(delta, delta) && dampConstant == 0.0 {
      assert h == 0.0;
      assert s * length == 1.0;
      calc {
        Dot(f, delta);
        s * m * Dot(delta, delta);
        s * m * (length * length);
        (s * length) * m * length;
        m * length;
      }
    }
  }

  /** Velocity of a rope's first mass after one rope update: unchanged below a separation of 1,
      otherwise corrected along the rope. `length` is the separation of the two masses. */
  function RopeVelocity(aPos: Vec, bPos: Vec, aVel: Vec, bVel: Vec, length: real,
                        restLength: real, springConstant: real, dampConstant: real): (r: Vec)
    ensures length < 1.0 ==> r == aVel
    ensures Cross(Sub(r, aVel), Sub(bPos, aPos)) == 0.0
    ensures springConstant == 0.0 && dampConstant == 0.0 ==> r == aVel
    ensures (length >= 1.0 && length * length == Dot(Sub(bPos, aPos), Sub(bPos, aPos)) && dampConstant == 0.0)
              ==> Dot(Sub(r, aVel), Sub(bPos, aPos)) == (length - restLength) * springConstant * length
  {
    if length < 1.0 then aVel
    else
      var f := RopeForce(Sub(bPos, aPos), Sub(bVel, aVel), length, restLength, springConstant, dampConstant);
      RopeForceAlongAxis(Sub(bPos, aPos), Sub(bVel, aVel), length, restLength, springConstant, dampConstant);
      assert Sub(Add(aVel, f), aVel) == f;
      Add(aVel, f)
  }

  // ---------------------------------------------------------------- placement

  /** Where setBikeInitialState puts each mass relative to the start position. */
  const HitboxOffset: Vec := Vec(0.0, -15.0)
  const WheelOffset: Vec := Vec(0.0, 35.0)
  const ArmOffset: Vec := Vec(10.0, 15.0)

  // ---------------------------------------------------------------- key log

  /** The six inputs whose presses the key log records. */
  datatype InputKey = UpPressed | DownPressed | LeftPressed | RightPressed | TurnPressed | CrouchPressed

  /** A recorded input event; the log entries are strings and are not inspected by this core. */
  type KeyEvent = string

  /** Every input has its own log in `log`. */
  predicate HasInputLogs(log: map<InputKey, seq<KeyEvent>>)
  {
    UpPressed in log && DownPressed in log && LeftPressed in log &&
    RightPressed in log && TurnPressed in log && CrouchPressed in log
  }

  /** The key log of a new unicycle: every input with an empty log. */
  function EmptyKeyLog(): (log: map<InputKey, seq<KeyEvent>>)
    ensures HasInputLogs(log)
    ensures forall k :: k in log ==> log[k] == []
  {
    map[UpPressed := [], DownPressed := [], LeftPressed := [],
        RightPressed := [], TurnPressed := [], CrouchPressed := []]
  }

  /** The key-log copy that clone builds: each input's log copied, except that the crouch entry
      receives the turn log. */
  function KeyLogCopy(log: map<InputKey, seq<KeyEvent>>): (r: map<InputKey, seq<KeyEvent>>)
    requires HasInputLogs(log)
    ensures HasInputLogs(r)
    ensures forall k :: k in r && k in log && k != CrouchPressed ==> r[k] == log[k]
    ensures r[CrouchPressed] == log[TurnPressed]
  {
    map[UpPressed := log[UpPressed], DownPressed := log[DownPressed],
        LeftPressed := log[LeftPressed], RightPressed := log[RightPressed],
        TurnPressed := log[TurnPressed], CrouchPressed := log[TurnPressed]]
  }

  /** The copy loses the crouch log whenever it differs from the turn log. */
  lemma KeyLogCopyLosesCrouch(log: map<InputKey, seq<KeyEvent>>)
    requires HasInputLogs(log)
    requires log[CrouchPressed] != log[TurnPressed]
    ensures KeyLogCopy(log)[CrouchPressed] != log[CrouchPressed]
    ensures KeyLogCopy(log) != log
  {
  }
}
