/**
 * The particle background of src/components/MyParticles.jsx: a particle that bounces
 * off the canvas walls, and the field of particles that is rebuilt whenever the
 * canvas is resized and stepped once per animation frame.
 *
 * `Particle` is a JavaScript class whose `update` assigns its fields in place, and the
 * component keeps the particle array and the canvas size in mutable references, so
 * both are Dafny classes. Coordinates are reals; `Math.random()` draws are parameters.
 */
module MyParticles {

  function Abs(v: real): (a: real)
    ensures a >= 0.0 && (a == v || a == -v)
  {
    if v < 0.0 then -v else v
  }

  /** A particle's fields at one moment. */
  datatype ParticleState = ParticleState(x: real, y: real, radius: real, color: string, dx: real, dy: real)

  // ---------------------------------------------------------------------------
  // One axis of the bounce rule
  // ---------------------------------------------------------------------------

  /** The wall test of `update`: the disc pokes past the far wall or past the near wall. */
  predicate HitsWall(pos: real, radius: real, extent: real) {
    pos + radius > extent || pos - radius < 0.0
  }

  /** The disc lies wholly between the walls `0` and `extent`. */
  predicate Inside(pos: real, radius: real, extent: real) {
    0.0 <= pos - radius && pos + radius <= extent
  }

  /** The wall test fires exactly when the disc is not wholly inside. */
  lemma HitsWallIffOutside(pos: real, radius: real, extent: real)
    ensures HitsWall(pos, radius, extent) <==> !Inside(pos, radius, extent)
  {
  }

  /** The velocity along one axis after the wall test: reversed on a hit, kept otherwise. */
  function Bounce(pos: real, radius: real, extent: real, v: real): (v': real)
    ensures Abs(v') == Abs(v)
    ensures HitsWall(pos, radius, extent) ==> v' == -v
    ensures !HitsWall(pos, radius, extent) ==> v' == v
  {
    if HitsWall(pos, radius, extent) then -v else v
  }

  /**
   * The state after one `update(canvas)` on a `width` by `height` canvas: both
   * velocities go through the wall test, then the position moves by the new velocities.
   */
  function Stepped(s: ParticleState, width: nat, height: nat): (t: ParticleState)
    ensures t.radius == s.radius && t.color == s.color
    ensures Abs(t.dx) == Abs(s.dx) && Abs(t.dy) == Abs(s.dy)
    ensures t.x == s.x + t.dx && t.y == s.y + t.dy
    ensures t.dx == (if HitsWall(s.x, s.radius, width as real) then -s.dx else s.dx)
    ensures t.dy == (if HitsWall(s.y, s.radius, height as real) then -s.dy else s.dy)
  {
    var dx := Bounce(s.x, s.radius, width as real, s.dx);
    var dy := Bounce(s.y, s.radius, height as real, s.dy);
    s.(x := s.x + dx, y := s.y + dy, dx := dx, dy := dy)
  }

  // ---------------------------------------------------------------------------
  // The particle
  // ---------------------------------------------------------------------------

  /** An instance of the `Particle` class. */
  class Particle {
    var x: real
    var y: real
    var radius: real
    var color: string
    var dx: real
    var dy: real

    /** The constructor stores its six arguments as they are. */
    constructor (x: real, y: real, radius: real, color: string, dx: real, dy: real)
      ensures this.x == x && this.y == y && this.radius == radius
      ensures this.color == color && this.dx == dx && this.dy == dy
    {
      this.x := x;
      this.y := y;
      this.radius := radius;
      this.color := color;
      this.dx := dx;
      this.dy := dy;
    }

    function State(): ParticleState
      reads this
    {
      ParticleState(x, y, radius, color, dx, dy)
    }

    /** `update(canvas)`: reverse a velocity whose wall is hit, then advance the position. */
    method Update(width: nat, height: nat)
      modifies this
      ensures State() == Stepped(old(State()), width, height)
    {
      if x + radius > width as real || x - radius < 0.0 {
        dx := -dx;
      }
      if y + radius > height as real || y - radius < 0.0 {
        dy := -dy;
      }
      x := x + dx;
      y := y + dy;
    }
  }

  // ---------------------------------------------------------------------------
  // Staying near the canvas
  // ---------------------------------------------------------------------------

  /**
   * Along one axis the disc is inside, or it left on its last step: stepping back by
   * its current velocity puts it inside again.
   */
  predicate NearAxis(pos: real, v: real, radius: real, extent: real) {
    Inside(pos, radius, extent) || Inside(pos - v, radius, extent)
  }

  /** The particle is near the canvas along both axes. */
  predicate NearCanvas(s: ParticleState, width: nat, height: nat) {
    NearAxis(s.x, s.dx, s.radius, width as real) && NearAxis(s.y, s.dy, s.radius, height as real)
  }

  /**
   * One axis: a disc inside moves on unchanged; a disc that has just left hits the wall,
   * turns round and lands where it came from, which is inside.
   */
  lemma NearAxisStep(pos: real, v: real, radius: real, extent: real)
    requires NearAxis(pos, v, radius, extent)
    ensures var v' := Bounce(pos, radius, extent, v);
      NearAxis(pos + v', v', radius, extent)
    ensures var v' := Bounce(pos, radius, extent, v);
      !Inside(pos, radius, extent) ==> Inside(pos + v', radius, extent)
  {
    if !Inside(pos, radius, extent) {
      assert HitsWall(pos, radius, extent);
      assert pos + -v == pos - v;
    } else {
      assert !HitsWall(pos, radius, extent);
      assert pos + v - v == pos;
    }
  }

  /** `update` keeps a particle near the canvas. */
  lemma StepKeepsNearCanvas(s: ParticleState, width: nat, height: nat)
    requires NearCanvas(s, width, height)
    ensures NearCanvas(Stepped(s, width, height), width, height)
  {
    NearAxisStep(s.x, s.dx, s.radius, width as real);
    NearAxisStep(s.y, s.dy, s.radius, height as real);
  }

  /** The state after `n` frames on a canvas of fixed size. */
  function Frames(s: ParticleState, width: nat, height: nat, n: nat): ParticleState {
    if n == 0 then s else Stepped(Frames(s, width, height, n - 1), width, height)
  }

  /** Near the canvas along one axis means at most one step's length outside it. */
  lemma NearAxisBounds(pos: real, v: real, radius: real, extent: real)
    requires NearAxis(pos, v, radius, extent)
    ensures radius - Abs(v) <= pos <= extent - radius + Abs(v)
  {
  }

  /**
   * However many frames run without a resize, a particle that starts near the canvas
   * keeps its radius, colour and speeds, and never strays further than one step past a wall.
   */
  lemma {:induction false} FramesStayNearCanvas(s: ParticleState, width: nat, height: nat, n: nat)
    requires NearCanvas(s, width, height)
    ensures var t := Frames(s, width, height, n);
      NearCanvas(t, width, height) && t.radius == s.radius && t.color == s.color
      && Abs(t.dx) == Abs(s.dx) && Abs(t.dy) == Abs(s.dy)
    ensures var t := Frames(s, width, height, n);
      s.radius - Abs(s.dx) <= t.x <= width as real - s.radius + Abs(s.dx)
      && s.radius - Abs(s.dy) <= t.y <= height as real - s.radius + Abs(s.dy)
  {
    if n > 0 {
      FramesStayNearCanvas(s, width, height, n - 1);
      StepKeepsNearCanvas(Frames(s, width, height, n - 1), width, height);
    }
    var t := Frames(s, width, height, n);
    NearAxisBounds(t.x, t.dx, t.radius, width as real);
    NearAxisBounds(t.y, t.dy, t.radius, height as real);
  }

  // ---------------------------------------------------------------------------
  // Spawning
  // ---------------------------------------------------------------------------

  /** The five `Math.random()` results one loop iteration uses, in call order. */
  datatype Draw = Draw(forRadius: real, forX: real, forY: real, forDx: real, forDy: real)

  predicate UnitDraw(d: Draw) {
    0.0 <= d.forRadius < 1.0 && 0.0 <= d.forX < 1.0 && 0.0 <= d.forY < 1.0
    && 0.0 <= d.forDx < 1.0 && 0.0 <= d.forDy < 1.0
  }

  /** A coordinate `Math.random() * (extent - radius * 2) + radius`. */
  function SpawnCoord(r: real, radius: real, extent: real): real {
    r * (extent - radius * 2.0) + radius
  }

  /** A velocity `(Math.random() - 0.5) * speed`. */
  function SpawnVelocity(r: real, speed: real): real {
    (r - 0.5) * speed
  }

  /** The particle one loop iteration builds on a `width` by `height` canvas. */
  function Spawn(d: Draw, width: nat, height: nat, color: string, speed: real): ParticleState {
    var radius := d.forRadius * 2.0 + 1.0;
    ParticleState(
      SpawnCoord(d.forX, radius, width as real),
      SpawnCoord(d.forY, radius, height as real),
      radius, color,
      SpawnVelocity(d.forDx, speed),
      SpawnVelocity(d.forDy, speed))
  }

  lemma ProductNonNegative(a: real, b: real)
    requires a >= 0.0 && b >= 0.0
    ensures a * b >= 0.0
  {
  }

  /** `(r - 0.5) * speed` is at most half the speed in size. */
  lemma CenteredScaled(r: real, speed: real)
    requires 0.0 <= r < 1.0
    ensures Abs(SpawnVelocity(r, speed)) <= Abs(speed) / 2.0
  {
    var c := r - 0.5;
    var m := Abs(speed);
    ProductNonNegative(0.5 - c, m);
    ProductNonNegative(c + 0.5, m);
    assert (0.5 - c) * m == m / 2.0 - c * m;
    assert (c + 0.5) * m == c * m + m / 2.0;
    if speed < 0.0 {
      assert c * speed == -(c * m);
    }
  }

  /** On an axis at least one diameter long, a spawned coordinate puts the disc wholly inside. */
  lemma SpawnCoordInside(r: real, radius: real, extent: real)
    requires 0.0 <= r < 1.0 && extent >= radius * 2.0
    ensures Inside(SpawnCoord(r, radius, extent), radius, extent)
  {
    ProductNonNegative(r, extent - radius * 2.0);
    ProductNonNegative(1.0 - r, extent - radius * 2.0);
  }

  /**
   * With random draws in `[0, 1)`: the radius is in `[1, 3)`, the colour is the prop, and
   * each speed is at most half of `speed`.
   */
  lemma SpawnShape(d: Draw, width: nat, height: nat, color: string, speed: real)
    requires UnitDraw(d)
    ensures var s := Spawn(d, width, height, color, speed);
      1.0 <= s.radius < 3.0 && s.color == color
      && Abs(s.dx) <= Abs(speed) / 2.0 && Abs(s.dy) <= Abs(speed) / 2.0
  {
    CenteredScaled(d.forDx, speed);
    CenteredScaled(d.forDy, speed);
  }

  /**
   * With random draws in `[0, 1)`, along an axis at least one diameter long the disc
   * starts wholly inside; a canvas at least 6 pixels each way is long enough on both.
   */
  lemma SpawnInside(d: Draw, width: nat, height: nat, color: string, speed: real)
    requires UnitDraw(d)
    ensures var s := Spawn(d, width, height, color, speed);
      width as real >= s.radius * 2.0 ==> Inside(s.x, s.radius, width as real)
    ensures var s := Spawn(d, width, height, color, speed);
      height as real >= s.radius * 2.0 ==> Inside(s.y, s.radius, height as real)
    ensures width >= 6 && height >= 6 ==> NearCanvas(Spawn(d, width, height, color, speed), width, height)
  {
    var radius := d.forRadius * 2.0 + 1.0;
    if width as real >= radius * 2.0 {
      SpawnCoordInside(d.forX, radius, width as real);
    }
    if height as real >= radius * 2.0 {
      SpawnCoordInside(d.forY, radius, height as real);
    }
  }

  /** A particle spawned on a canvas at least 6 by 6 stays within one step of it until the next resize. */
  lemma SpawnedParticlesStayNearCanvas(d: Draw, width: nat, height: nat, color: string, speed: real, n: nat)
    requires UnitDraw(d) && width >= 6 && height >= 6
    ensures var s := Spawn(d, width, height, color, speed);
      var t := Frames(s, width, height, n);
      s.radius - Abs(speed) / 2.0 <= t.x <= width as real - s.radius + Abs(speed) / 2.0
      && s.radius - Abs(speed) / 2.0 <= t.y <= height as real - s.radius + Abs(speed) / 2.0
  {
    var s := Spawn(d, width, height, color, speed);
    SpawnShape(d, width, height, color, speed);
    SpawnInside(d, width, height, color, speed);
    FramesStayNearCanvas(s, width, height, n);
  }

  // ---------------------------------------------------------------------------
  // The component
  // ---------------------------------------------------------------------------

  /** The canvas size, the particle array and the component's props. */
  class ParticleField {
    var width: nat
    var height: nat
    var particles: seq<Particle>
    const color: string
    const count: nat
    const speed: real

    /** No two entries of the array are the same object. */
    predicate Distinct()
      reads this
    {
      forall i, j :: 0 <= i < j < |particles| ==> particles[i] != particles[j]
    }

    /** `useRef([])` on a canvas of the default 300 by 150 size. */
    constructor (color: string, count: nat, speed: real)
      ensures this.color == color && this.count == count && this.speed == speed
      ensures width == 300 && height == 150 && particles == []
    {
      this.color := color;
      this.count := count;
      this.speed := speed;
      width := 300;
      height := 150;
      particles := [];
    }

    /**
     * `initializeParticles`: empty the array, then push `count` new particles built
     * from the current canvas size, the colour and the speed, draw `i` making particle `i`.
     */
    method InitializeParticles(draws: seq<Draw>)
      requires |draws| == count
      modifies this
      ensures |particles| == count && Distinct()
      ensures forall i :: 0 <= i < |particles| ==> fresh(particles[i])
      ensures forall i :: 0 <= i < |particles| ==>
        particles[i].State() == Spawn(draws[i], width, height, color, speed)
      ensures width == old(width) && height == old(height)
    {
      particles := [];
      var canvasWidth := width;
      var canvasHeight := height;
      for i := 0 to count
        invariant |particles| == i && Distinct()
        invariant width == canvasWidth && height == canvasHeight
        invariant forall k :: 0 <= k < i ==> fresh(particles[k])
        invariant forall k :: 0 <= k < i ==>
          particles[k].State() == Spawn(draws[k], width, height, color, speed)
      {
        var d := draws[i];
        var radius := d.forRadius * 2.0 + 1.0;
        var x := SpawnCoord(d.forX, radius, canvasWidth as real);
        var y := SpawnCoord(d.forY, radius, canvasHeight as real);
        var dx := SpawnVelocity(d.forDx, speed);
        var dy := SpawnVelocity(d.forDy, speed);
        var p := new Particle(x, y, radius, color, dx, dy);
        assert p.State() == Spawn(d, width, height, color, speed);
        particles := particles + [p];
      }
    }

    /**
     * `handleResize`: the canvas takes the element's displayed size first, and only then
     * are the particles rebuilt, so they are spawned on the new size.
     */
    method HandleResize(clientWidth: nat, clientHeight: nat, draws: seq<Draw>)
      requires |draws| == count
      modifies this
      ensures width == clientWidth && height == clientHeight
      ensures |particles| == count && Distinct()
      ensures forall i :: 0 <= i < |particles| ==> fresh(particles[i])
      ensures forall i :: 0 <= i < |particles| ==>
        particles[i].State() == Spawn(draws[i], clientWidth, clientHeight, color, speed)
    {
      width := clientWidth;
      height := clientHeight;
      InitializeParticles(draws);
    }

    /** One `animate` frame: every particle in the array runs `update` on the canvas once. */
    method AnimateFrame()
      requires Distinct()
      modifies set p | p in particles
      ensures forall i :: 0 <= i < |particles| ==>
        particles[i].State() == Stepped(old(particles[i].State()), width, height)
      ensures (forall i :: 0 <= i < |particles| ==> NearCanvas(old(particles[i].State()), width, height)) ==>
        forall i :: 0 <= i < |particles| ==> NearCanvas(particles[i].State(), width, height)
    {
      for i := 0 to |particles|
        invariant forall k :: 0 <= k < i ==>
          particles[k].State() == Stepped(old(particles[k].State()), width, height)
        invariant forall k :: i <= k < |particles| ==> particles[k].State() == old(particles[k].State())
      {
        particles[i].Update(width, height);
      }
      forall i | 0 <= i < |particles| && NearCanvas(old(particles[i].State()), width, height)
        ensures NearCanvas(particles[i].State(), width, height)
      {
        StepKeepsNearCanvas(old(particles[i].State()), width, height);
      }
    }
  }
}
