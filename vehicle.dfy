/** The base vehicle: the defaults every vehicle type starts from and the slow-motion switch,
    plus the two collaborators a vehicle is built with (the track and the runner). */
module Vehicles {
  import opened Vectors

  /** The track collaborator; the model uses only its origin, where a new vehicle is placed. */
  class Track {
    var origin: Vec

    constructor (origin: Vec)
      ensures this.origin == origin
    {
      this.origin := origin;
    }
  }

  /** The runner collaborator; the model uses only the input flags it exposes each tick. */
  class Runner {
    var upPressed: bool
    var downPressed: bool
    var leftPressed: bool
    var rightPressed: bool
    var turnPressed: bool
    var crouchPressed: bool

    constructor ()
      ensures !upPressed && !downPressed && !leftPressed && !rightPressed
      ensures !turnPressed && !crouchPressed
    {
      upPressed, downPressed, leftPressed, rightPressed := false, false, false, false;
      turnPressed, crouchPressed := false, false;
    }
  }

  const DefaultFriction: real := 0.99
  const DefaultGravity: Vec := Vec(0.0, 0.3)
  const DefaultColor: string := "#000"
  const DefaultHeadGear: string := "hat"

  /** The two fields that setSlow updates. */
  datatype SlowMode = SlowMode(slow: bool, parity: int)

  /** The slow/parity state after setSlow(slow) from state `m`. */
  function SlowAfter(m: SlowMode, slow: bool): (r: SlowMode)
    ensures r.slow == slow
    ensures m.slow && slow ==> r.parity == m.parity
    ensures !(m.slow && slow) ==> r.parity == 0
  {
    if (!m.slow && slow) || !slow then SlowMode(slow, 0) else SlowMode(slow, m.parity)
  }

  /** setSlow(false) always leaves the vehicle fast with parity zero. */
  lemma SlowOff(m: SlowMode)
    ensures SlowAfter(m, false) == SlowMode(false, 0)
  {
  }

  /** setSlow(true) restarts the parity when entering slow motion and keeps it when already slow. */
  lemma SlowOn(m: SlowMode)
    ensures SlowAfter(m, true).slow
    ensures !m.slow ==> SlowAfter(m, true).parity == 0
    ensures m.slow ==> SlowAfter(m, true).parity == m.parity
  {
  }

  /** Calling setSlow twice with the same argument has the effect of calling it once. */
  lemma SlowIdempotent(m: SlowMode, slow: bool)
    ensures SlowAfter(SlowAfter(m, slow), slow) == SlowAfter(m, slow)
  {
  }

  class Vehicle {
    var track: Track
    var runner: Runner
    var friction: real
    var distance: real
    var direction: int
    var gravity: Vector
    var slow: bool
    var slowParity: int
    var color: string
    var headGear: string

    constructor (track: Track, runner: Runner)
      ensures this.track == track && this.runner == runner
      ensures friction == DefaultFriction && distance == 0.0 && direction == 1
      ensures fresh(gravity) && gravity.Val() == DefaultGravity
      ensures !slow && slowParity == 0
      ensures color == DefaultColor && headGear == DefaultHeadGear
    {
      this.track := track;
      this.runner := runner;
      friction := DefaultFriction;
      distance := 0.0;
      direction := 1;
      gravity := new Vector(0.0, 0.3);
      slow := false;
      slowParity := 0;
      color := DefaultColor;
      headGear := DefaultHeadGear;
    }

    function Mode(): SlowMode
      reads this
    {
      SlowMode(slow, slowParity)
    }

    method SetSlow(s: bool)
      modifies this`slow, this`slowParity
      ensures Mode() == SlowAfter(old(Mode()), s)
    {
      if (!slow && s) || !s {
        slowParity := 0;
      }
      slow := s;
    }
  }
}
