/** The unicycle vehicle: three point masses (hitbox, wheel, arm) joined by a spring and two
    ropes, its per-tick steering update, its placement at the track origin and its clone. */
module Unicycle {
  import opened Vectors
  import opened Vehicles
  import opened UniPolicy

  /** Plain masses and the driven wheel share one class; the wheel-only fields are unused on
      plain masses. */
  datatype PartKind = BodyPart | WheelPart

  /** A point mass of a vehicle. Its positions and velocity are held as values. */
  class Part {
    const kind: PartKind
    var pos: Vec
    var oldPos: Vec
    var displayPos: Vec
    var velocity: Vec
    var size: real
    /** The vehicle that owns this mass. */
    var bike: Uni?
    /** The vehicle whose runner the mass's crash callback notifies; null when it has none. */
    var drive: Uni?
    var speedValue: real
    var rotationSpeed: real

    /** Current, previous and display position all equal `p`. */
    ghost predicate RestingAt(p: Vec)
      reads this
    {
      pos == p && oldPos == p && displayPos == p
    }

    /** This mass holds the same physical state as `p`. */
    ghost predicate SameState(p: Part)
      reads this`pos, this`oldPos, this`displayPos, this`velocity, this`size, this`speedValue
      reads this`rotationSpeed, p`pos, p`oldPos, p`displayPos, p`velocity, p`size, p`speedValue
      reads p`rotationSpeed
    {
      kind == p.kind && pos == p.pos && oldPos == p.oldPos && displayPos == p.displayPos &&
      velocity == p.velocity && size == p.size && speedValue == p.speedValue &&
      rotationSpeed == p.rotationSpeed
    }

    constructor (kind: PartKind, pos: Vec, bike: Uni?)
      ensures this.kind == kind && this.pos == pos && this.bike == bike && drive == null
    {
      this.kind := kind;
      this.pos := pos;
      this.bike := bike;
      drive := null;
    }

    /** A new mass with the same state, owner and callback binding as `src` (its clone). */
    constructor Copy(src: Part)
      ensures SameState(src) && bike == src.bike && drive == src.drive
    {
      kind := src.kind;
      pos := src.pos;
      oldPos := src.oldPos;
      displayPos := src.displayPos;
      velocity := src.velocity;
      size := src.size;
      bike := src.bike;
      drive := src.drive;
      speedValue := src.speedValue;
      rotationSpeed := src.rotationSpeed;
    }
  }

  /** A spring pushes both of its masses; a rope pulls only its first. */
  datatype SpringKind = SpringLink | RopeLink

  /** A constraint between two masses of the same vehicle. */
  class Spring {
    const kind: SpringKind
    var a: Part
    var b: Part
    var len: real
    var lengthTowards: real
    var springConstant: real
    var dampConstant: real

    constructor (kind: SpringKind, a: Part, b: Part)
      ensures this.kind == kind && this.a == a && this.b == b
    {
      this.kind := kind;
      this.a := a;
      this.b := b;
    }

    /** Same kind, rest lengths and constants as `s`. */
    ghost predicate SameSettings(s: Spring)
      reads this`len, this`lengthTowards, this`springConstant, this`dampConstant
      reads s`len, s`lengthTowards, s`springConstant, s`dampConstant
    {
      kind == s.kind && len == s.len && lengthTowards == s.lengthTowards &&
      springConstant == s.springConstant && dampConstant == s.dampConstant
    }

    /** Leans the spring; only its current length may change. */
    method Lean(amount: real, speed: real)
      modifies this`len
    {
    }

    /** Turns the spring; only its current length may change. */
    method Rotate(amount: real)
      modifies this`len
    {
    }

    /** One update of a rope. `length` is the separation of the two masses. Only the first
        mass's velocity is changed. */
    method FixedUpdate(length: real)
      requires kind == RopeLink
      requires length >= 0.0 && length * length == Dot(Sub(b.pos, a.pos), Sub(b.pos, a.pos))
      modifies a`velocity
      ensures a.velocity == RopeVelocity(a.pos, b.pos, old(a.velocity), old(b.velocity),
                                         length, len, springConstant, dampConstant)
      ensures length < 1.0 ==> a.velocity == old(a.velocity)
      ensures a != b ==> b.velocity == old(b.velocity)
    {
      var distance := Sub(b.pos, a.pos);
      if length < 1.0 {
        return;
      }
      distance := Scale(distance, 1.0 / length);
      var force := Scale(distance, (length - len) * springConstant);
      var normalVelocity := Dot(Sub(b.velocity, a.velocity), distance) * dampConstant;
      force := Add(force, Scale(distance, normalVelocity * 0.5));
      assert force == RopeForce(Sub(b.pos, a.pos), Sub(b.velocity, a.velocity), length, len,
                                springConstant, dampConstant);
      a.velocity := Add(a.velocity, force);
    }

    /** A new constraint of the same kind and settings as `src`, still joining the masses of
        `src` (its clone). */
    constructor Copy(src: Spring)
      ensures SameSettings(src) && a == src.a && b == src.b
    {
      kind := src.kind;
      a := src.a;
      b := src.b;
      lengthTowards := src.lengthTowards;
      len := src.len;
      dampConstant := src.dampConstant;
      springConstant := src.springConstant;
    }
  }

  /** The three masses of a new unicycle: hitbox, wheel and arm, at the origin with their
      sizes, not yet bound to a vehicle. */
  method NewMasses() returns (h: Part, w: Part, a: Part)
    ensures fresh(h) && fresh(w) && fresh(a) && h != w && w != a && h != a
    ensures h.kind == BodyPart && w.kind == WheelPart && a.kind == BodyPart
    ensures h.size == 13.0 && w.size == 13.0 && a.size == 4.0
    ensures w.drive == null && a.drive == null
  {
    h := new Part(BodyPart, Vec(0.0, 0.0), null);
    w := new Part(WheelPart, Vec(0.0, 0.0), null);
    a := new Part(BodyPart, Vec(0.0, 0.0), null);
    h.size := 13.0;
    w.size := 13.0;
    a.size := 4.0;
  }

  /** The constraints of a new unicycle over masses `h`, `w` and `a`: the head-to-wheel spring
      and the head-to-arm and wheel-to-arm ropes, with their rest lengths. */
  method NewConstraints(h: Part, w: Part, a: Part) returns (hw: Spring, ha: Spring, wa: Spring)
    ensures fresh(hw) && fresh(ha) && fresh(wa)
    ensures hw.kind == SpringLink && hw.a == h && hw.b == w
    ensures ha.kind == RopeLink && ha.a == a && ha.b == h
    ensures wa.kind == RopeLink && wa.a == a && wa.b == w
    ensures hw.len == 52.0 && hw.lengthTowards == 52.0
    ensures ha.len == 25.0 && ha.lengthTowards == 25.0
    ensures wa.len == 25.0 && wa.lengthTowards == 25.0 && wa.springConstant == 0.0
  {
    hw := new Spring(SpringLink, h, w);
    ha := new Spring(RopeLink, a, h);
    hw.len, hw.lengthTowards := 52.0, 52.0;
    ha.len, ha.lengthTowards := 25.0, 25.0;

    wa := new Spring(RopeLink, a, w);
    wa.len, wa.lengthTowards := 25.0, 25.0;
    wa.springConstant := 0.0;
  }

  /** Clones of the masses `h`, `w` and `a`. */
  method CopyMasses(h: Part, w: Part, a: Part) returns (h': Part, w': Part, a': Part)
    ensures fresh(h') && fresh(w') && fresh(a') && h' != w' && w' != a' && h' != a'
    ensures h'.SameState(h) && w'.SameState(w) && a'.SameState(a)
    ensures w'.drive == w.drive && a'.drive == a.drive
  {
    w' := new Part.Copy(w);
    h' := new Part.Copy(h);
    a' := new Part.Copy(a);
  }

  /** Clones of the constraints `hw`, `ha` and `wa`, re-linked to the masses `h`, `w` and `a`
      as the unicycle arranges them. */
  method CopyConstraints(hw: Spring, ha: Spring, wa: Spring, h: Part, w: Part, a: Part)
    returns (hw': Spring, ha': Spring, wa': Spring)
    ensures fresh(hw') && fresh(ha') && fresh(wa')
    ensures hw'.SameSettings(hw) && ha'.SameSettings(ha) && wa'.SameSettings(wa)
    ensures hw'.a == h && hw'.b == w && ha'.a == a && ha'.b == h && wa'.a == a && wa'.b == w
  {
    hw' := new Spring.Copy(hw);
    hw'.a := h;
    hw'.b := w;

    ha' := new Spring.Copy(ha);
    ha'.a := a;
    ha'.b := h;

    wa' := new Spring.Copy(wa);
    wa'.a := a;
    wa'.b := w;
  }

  /** Makes `u` the owner of the three masses and the target of the hitbox's crash binding. */
  method BindMasses(h: Part, w: Part, a: Part, u: Uni)
    modifies h`bike, h`drive, w`bike, a`bike
    ensures h.bike == u && w.bike == u && a.bike == u && h.drive == u
  {
    h.bike, w.bike, a.bike := u, u, u;
    h.drive := u;
  }

  /** The skeleton pose drawn for the rider. */
  datatype RiderPose = RiderPose(head: Vec, hand: Vec, shadowHand: Vec, hip: Vec, foot: Vec,
                                 shadowFoot: Vec, elbow: Vec, shadowElbow: Vec, knee: Vec,
                                 shadowKnee: Vec)

  /** The unicycle. It carries the fields of the base vehicle (track to headGear) and its own. */
  class Uni {
    var track: Track
    var runner: Runner
    var friction: real
    var distance: real
    var direction: int
    var gravity: Vector
    var slow: bool
    var slowParity: int
    var color: string
    var headGear: string

    var rotationFactor: real
    var hitbox: Part
    var wheel: Part
    var backWheel: Part
    var frontWheel: Part
    var arm: Part
    var headToWheel: Spring
    var headToArm: Spring
    var wheelToArm: Spring
    var points: seq<Part>
    var joints: seq<Spring>
    var keyLog: map<InputKey, seq<KeyEvent>>

    /** The fixed topology of a unicycle and the back-references of its masses. */
    ghost predicate Linked()
      reads this, hitbox`bike, hitbox`drive, wheel`bike, arm`bike
      reads headToWheel`a, headToWheel`b, headToArm`a, headToArm`b, wheelToArm`a, wheelToArm`b
    {
      && hitbox != arm
      && backWheel == wheel && frontWheel == wheel
      && headToWheel.a == hitbox && headToWheel.b == wheel
      && headToArm.a == arm && headToArm.b == hitbox
      && wheelToArm.a == arm && wheelToArm.b == wheel
      && points == [hitbox, wheel, arm]
      && joints == [headToWheel, headToArm]
      && hitbox.bike == this && wheel.bike == this && arm.bike == this
      && hitbox.drive == this
    }

    /** A unit facing direction, a usable rotation factor and a log for every input. */
    ghost predicate WellFormed()
      reads this
    {
      && (direction == 1 || direction == -1)
      && rotationFactor != 0.0
      && HasInputLogs(keyLog)
    }

    /** The invariant of a unicycle. Only the hitbox carries a crash binding. */
    ghost predicate Valid()
      reads this, hitbox`bike, hitbox`drive, wheel`bike, wheel`drive, arm`bike, arm`drive
      reads headToWheel`a, headToWheel`b, headToArm`a, headToArm`b, wheelToArm`a, wheelToArm`b
    {
      Kinds() && Linked() && WellFormed() && wheel.drive == null && arm.drive == null
    }

    /** The masses rest at the fixed offsets from `startPos`. */
    ghost predicate PlacedAt(startPos: Vec)
      reads this, hitbox, wheel, arm
    {
      hitbox.RestingAt(Add(startPos, HitboxOffset)) &&
      wheel.RestingAt(Add(startPos, WheelOffset)) &&
      arm.RestingAt(Add(startPos, ArmOffset))
    }

    /** The base-vehicle fields take the defaults of `Vehicles` (as `Vehicles.Vehicle` does);
        the unicycle then sets its own fields and finally switches slow motion on. */
    constructor (track: Track, runner: Runner)
      ensures Valid() && fresh(gravity)
      ensures fresh(hitbox) && fresh(wheel) && fresh(arm)
      ensures fresh(headToWheel) && fresh(headToArm) && fresh(wheelToArm)
      ensures this.track == track && this.runner == runner
      ensures friction == DefaultFriction && distance == 0.0 && direction == 1
      ensures gravity.Val() == DefaultGravity
      ensures slow && slowParity == 0 && color == DefaultColor && headGear == DefaultHeadGear
      ensures rotationFactor == 10.0
      ensures headToWheel.len == 52.0 && headToWheel.lengthTowards == 52.0
      ensures headToArm.len == 25.0 && headToArm.lengthTowards == 25.0
      ensures wheelToArm.len == 25.0 && wheelToArm.lengthTowards == 25.0 && wheelToArm.springConstant == 0.0
      ensures hitbox.size == 13.0 && wheel.size == 13.0 && arm.size == 4.0
      ensures PlacedAt(track.origin)
      ensures keyLog == EmptyKeyLog()
    {
      this.track := track;
      this.runner := runner;
      friction := DefaultFriction;
      distance := 0.0;
      direction := 1;
      gravity := new Vector(0.0, 0.3);
      slow := false;
      slowParity := 0;
      color := DefaultColor;
      headGear := DefaultHeadGear;

      rotationFactor := 10.0;

      var h, w, a := NewMasses();
      hitbox, wheel, backWheel, frontWheel, arm := h, w, w, w, a;

      var hw, ha, wa := NewConstraints(h, w, a);
      headToWheel, headToArm, wheelToArm := hw, ha, wa;

      points := [h, w, a];
      joints := [hw, ha];

      keyLog := EmptyKeyLog();
      // The unicycle runs in slow motion; the source sets this last, after the placement
      // below, which neither reads nor writes it.
      slow := true;
      new;
      BindMasses(h, w, a, this);
      SetBikeInitialState(track.origin);
    }

    /** Reverses the facing direction. */
    method Turn()
      modifies this`direction
      ensures direction == Turned(old(direction))
    {
      direction := direction * -1;
    }

    /** One tick of the rider's input: turn, lean, steer the wheel, advance the pedal phase and
        crouch. */
    method UpdatePhysics()
      requires Valid()
      modifies this`direction, this`distance, wheel`speedValue, headToWheel`len, headToArm`len
      ensures Valid()
      ensures direction == if runner.turnPressed then Turned(old(direction)) else old(direction)
      ensures wheel.speedValue ==
              SmoothSpeed(old(wheel.speedValue), SpeedTarget(RotateInput(runner.leftPressed, runner.rightPressed), direction))
      ensures distance == old(distance) + wheel.rotationSpeed
      ensures headToWheel.lengthTowards == old(headToWheel.lengthTowards)
    {
      TurnOnInput();
      var speed := LeanSpeed(runner.upPressed);
      LeanInput(speed);
      Steer();
      InterpolateCrouch();
      CrouchLean(speed);
    }

    /** The turn step of a tick: turn when the turn input is held. */
    method TurnOnInput()
      modifies this`direction
      ensures direction == if runner.turnPressed then Turned(old(direction)) else old(direction)
    {
      if runner.turnPressed {
        Turn();
      }
    }

    /** The extra lean of a crouching rider. */
    method CrouchLean(speed: real)
      modifies headToWheel`len
      ensures !runner.crouchPressed ==> headToWheel.len == old(headToWheel.len)
      ensures headToWheel.lengthTowards == old(headToWheel.lengthTowards)
    {
      if runner.crouchPressed {
        headToWheel.Lean(5.0, speed);
      }
    }

    /** The lean step of a tick: both lean calls, scaled by the up input. */
    method LeanInput(speed: real)
      modifies headToWheel`len, headToArm`len
      ensures headToWheel.lengthTowards == old(headToWheel.lengthTowards)
      ensures headToArm.lengthTowards == old(headToArm.lengthTowards)
    {
      var up := runner.upPressed;
      var amount := LeanAmount;
      headToWheel.Lean(2.0 * amount * Num(up) as real, speed);
      headToArm.Lean(amount * Num(up) as real, speed);
    }

    /** The steering step of a tick: the wheel's speed moves a fifth of the way to the speed the
        left/right input asks for, the head-to-wheel spring turns and the pedal phase advances. */
    method Steer()
      requires rotationFactor != 0.0
      modifies this`distance, wheel`speedValue, headToWheel`len
      ensures wheel.speedValue ==
              SmoothSpeed(old(wheel.speedValue), SpeedTarget(RotateInput(runner.leftPressed, runner.rightPressed), direction))
      ensures distance == old(distance) + wheel.rotationSpeed
    {
      var rotate := RotateInput(runner.leftPressed, runner.rightPressed);
      var dirFactor := if Sign(rotate) == direction then 1.0 else 0.8;
      var target := rotate as real * 0.5 * direction as real * dirFactor;
      wheel.speedValue := wheel.speedValue + (target - wheel.speedValue) / 5.0;
      assert wheel.speedValue == SmoothSpeed(old(wheel.speedValue), SpeedTarget(rotate, direction));
      headToWheel.Rotate(RotateAmount(rotate, direction, rotationFactor));
      distance := distance + wheel.rotationSpeed;
    }

    /** The crouch step of a tick: move the head-to-wheel length a quarter of the way to its
        target. */
    method InterpolateCrouch()
      modifies headToWheel`len
      ensures headToWheel.len == CrouchStep(old(headToWheel.len), headToWheel.lengthTowards, runner.crouchPressed)
      ensures headToWheel.len - CrouchTarget(headToWheel.lengthTowards, runner.crouchPressed)
              == 0.75 * (old(headToWheel.len) - CrouchTarget(headToWheel.lengthTowards, runner.crouchPressed))
    {
      var targetLength := if runner.crouchPressed then headToWheel.lengthTowards * 0.8 else headToWheel.lengthTowards;
      headToWheel.len := headToWheel.len + (targetLength - headToWheel.len) * 0.25;
    }

    /** The three masses are distinct objects. */
    ghost predicate Distinct()
      reads this
    {
      hitbox != wheel && wheel != arm && hitbox != arm
    }

    /** Places the three masses at rest at their fixed offsets from `startPos`. */
    method SetBikeInitialState(startPos: Vec)
      requires Distinct()
      modifies hitbox`pos, hitbox`oldPos, hitbox`displayPos, wheel`pos, wheel`oldPos, wheel`displayPos,
               arm`pos, arm`oldPos, arm`displayPos
      ensures PlacedAt(startPos)
    {
      hitbox.pos := Vec(startPos.x, startPos.y - 15.0);
      hitbox.oldPos := hitbox.pos;
      hitbox.displayPos := hitbox.pos;
      wheel.pos := Vec(startPos.x, startPos.y + 35.0);
      wheel.oldPos := wheel.pos;
      wheel.displayPos := wheel.pos;
      arm.pos := Vec(startPos.x + 10.0, startPos.y + 15.0);
      arm.oldPos := arm.pos;
      arm.displayPos := arm.pos;
    }

    /** The rider's skeleton, derived from the mass positions. `pedalPos` is the pedal offset
        from the wheel centre. */
    function GetRider(pedalPos: Vec): (r: RiderPose)
      reads this, hitbox, wheel, arm
      ensures r.head == hitbox.pos
      ensures r.hand == arm.pos && r.shadowHand == r.hand
      ensures r.hip == Midpoint(hitbox.pos, wheel.pos)
      ensures Sub(r.foot, wheel.pos) == pedalPos
      ensures Midpoint(r.foot, r.shadowFoot) == wheel.pos
      ensures r.elbow == Midpoint(arm.pos, hitbox.pos) && r.shadowElbow == r.elbow
      ensures r.knee == Midpoint(r.hip, r.foot) && r.shadowKnee == Midpoint(r.hip, r.shadowFoot)
    {
      var toHead := Sub(hitbox.pos, wheel.pos);
      var head := Add(wheel.pos, toHead);
      var hip := Add(wheel.pos, Scale(toHead, 0.5));
      var foot := Add(wheel.pos, pedalPos);
      var shadowFoot := Sub(wheel.pos, pedalPos);
      var elbow := Scale(Add(arm.pos, head), 0.5);
      RiderPose(head, arm.pos, arm.pos, hip, foot, shadowFoot, elbow, elbow,
                Scale(Add(hip, foot), 0.5), Scale(Add(hip, shadowFoot), 0.5))
    }

    /** A copy of this unicycle whose masses and constraints are all new objects, with every
        constraint re-linked to the copy's own masses. `discardedKeyLog` is the key-log copy
        that is built and then dropped. */
    method Clone() returns (c: Uni, ghost discardedKeyLog: map<InputKey, seq<KeyEvent>>)
      requires HasInputLogs(keyLog)
      ensures c.Linked() && (Valid() ==> c.Valid())
      ensures c.hitbox != c.wheel && c.wheel != c.arm
      ensures fresh(c) && fresh(c.hitbox) && fresh(c.wheel) && fresh(c.arm)
      ensures fresh(c.headToWheel) && fresh(c.headToArm) && fresh(c.wheelToArm)
      ensures c.SameSettings(this)
      ensures c.hitbox.SameState(hitbox) && c.wheel.SameState(wheel) && c.arm.SameState(arm)
      ensures c.headToWheel.SameSettings(headToWheel) && c.headToArm.SameSettings(headToArm)
      ensures c.wheelToArm.SameSettings(wheelToArm)
      ensures c.keyLog == EmptyKeyLog()
      ensures discardedKeyLog == KeyLogCopy(keyLog)
    {
      c := new Uni.CopyOf(this);
      discardedKeyLog := KeyLogCopy(keyLog);
    }

    /** This unicycle holds the same settings as `src` and shares its track, runner and
        gravity. */
    ghost predicate SameSettings(src: Uni)
      reads this, src
    {
      && gravity == src.gravity && track == src.track && runner == src.runner
      && friction == src.friction && distance == src.distance && direction == src.direction
      && slow == src.slow && slowParity == src.slowParity
      && color == src.color && headGear == src.headGear && rotationFactor == src.rotationFactor
    }

    /** The kinds of the masses and constraints. */
    ghost predicate Kinds()
      reads this
    {
      && hitbox.kind == BodyPart && wheel.kind == WheelPart && arm.kind == BodyPart
      && headToWheel.kind == SpringLink && headToArm.kind == RopeLink && wheelToArm.kind == RopeLink
    }

    /** The unicycle that clone returns. Clone builds it with the ordinary constructor and then
        overwrites every field except the track, the runner and the key log; this constructor
        sets those three as the ordinary one does and takes every other field from `src`: the
        settings by value, the masses and constraints as copies re-linked to one another. */
    constructor CopyOf(src: Uni)
      ensures Linked() && (src.Valid() ==> Valid())
      ensures hitbox != wheel && wheel != arm
      ensures fresh(hitbox) && fresh(wheel) && fresh(arm)
      ensures fresh(headToWheel) && fresh(headToArm) && fresh(wheelToArm)
      ensures SameSettings(src)
      ensures hitbox.SameState(src.hitbox) && wheel.SameState(src.wheel) && arm.SameState(src.arm)
      ensures headToWheel.SameSettings(src.headToWheel) && headToArm.SameSettings(src.headToArm)
      ensures wheelToArm.SameSettings(src.wheelToArm)
      ensures keyLog == EmptyKeyLog()
    {
      track := src.track;
      runner := src.runner;
      keyLog := EmptyKeyLog();

      friction := src.friction;

      distance := src.distance;
      direction := src.direction;
      gravity := src.gravity;

      slow := src.slow;
      slowParity := src.slowParity;

      color := src.color;
      headGear := src.headGear;

      rotationFactor := src.rotationFactor;

      var h, w, a := CopyMasses(src.hitbox, src.wheel, src.arm);
      wheel := w;
      backWheel := w;
      frontWheel := w;
      hitbox := h;
      arm := a;

      var hw, ha, wa := CopyConstraints(src.headToWheel, src.headToArm, src.wheelToArm, h, w, a);
      headToWheel := hw;
      headToArm := ha;
      wheelToArm := wa;

      points := [h, w, a];
      joints := [hw, ha];
      new;

      w.bike := this;
      h.bike := this;
      h.drive := this;
      a.bike := this;
    }

    /** The unicycle ignores slow motion: nothing changes. */
    method SetSlow(s: bool)
      ensures slow == old(slow) && slowParity == old(slowParity)
    {
    }

    /** Every constraint joins two of the vehicle's own points; the arm-to-wheel rope is not
        among the joints. */
    lemma ConstraintsStayInside()
      requires Valid()
      ensures headToWheel.a in points && headToWheel.b in points
      ensures headToArm.a in points && headToArm.b in points
      ensures wheelToArm.a in points && wheelToArm.b in points
      ensures wheelToArm !in joints && |points| == 3 && |joints| == 2
    {
    }
  }
}
