/**
 * The decorative particle field: a pool of 40 particles created once, each
 * drifting by its own fixed velocity and recycled in place at the bottom of
 * the canvas when its life counter passes its lifespan.
 *
 * `Math.random()` values are inputs (each in [0, 1)); the window's inner
 * size is an input at each call; drawing and the flickering opacity are not
 * modelled.
 */
module Particles {

  /** `particleCount`. */
  const ParticleCount: nat := 40

  /** The drawing surface; only its dimensions matter here. */
  class Canvas {
    var width: int
    var height: int

    constructor (width: int, height: int)
      ensures this.width == width && this.height == height
    {
      this.width := width;
      this.height := height;
    }
  }

  /** `window.innerWidth` and `window.innerHeight` at the time of a call. */
  datatype Window = Window(innerWidth: int, innerHeight: int)

  /** `canvas.width || window.innerWidth`: a zero canvas dimension falls back to the window's. */
  function OrWindow(canvasDim: int, windowDim: int): (r: int)
    ensures canvasDim != 0 ==> r == canvasDim
    ensures canvasDim == 0 ==> r == windowDim
  {
    if canvasDim != 0 then canvasDim else windowDim
  }

  /** The random draws a new particle consumes: position, size, speeds and lifespan. */
  datatype Draws = Draws(rx: real, ry: real, rSize: real, rSpeedX: real, rSpeedY: real, rMaxLife: real)

  predicate IsUnit(r: real) {
    0.0 <= r < 1.0
  }

  predicate UnitDraws(d: Draws) {
    IsUnit(d.rx) && IsUnit(d.ry) && IsUnit(d.rSize) && IsUnit(d.rSpeedX) && IsUnit(d.rSpeedY) && IsUnit(d.rMaxLife)
  }

  /** A snapshot of one particle's fields. */
  datatype State = State(x: real, y: real, size: real, speedX: real, speedY: real, life: int, maxLife: real)

  /** The attribute ranges a freshly created particle falls in. */
  predicate SpawnRanges(s: State) {
    && s.life == 0
    && 200.0 <= s.maxLife < 400.0
    && 1.0 <= s.size < 4.0
    && -0.25 <= s.speedX < 0.25
    && 0.1 <= s.speedY < 0.4
  }

  /** The fields of a particle built from draws `d` on a surface of the given size. */
  function Spawn(d: Draws, width: int, height: int): State {
    State(d.rx * width as real, d.ry * height as real, d.rSize * 3.0 + 1.0,
          (d.rSpeedX - 0.5) * 0.5, d.rSpeedY * 0.3 + 0.1, 0, d.rMaxLife * 200.0 + 200.0)
  }

  /** The life counter stays within the lifespan. */
  predicate LifeInRange(s: State) {
    0 <= s.life && s.life as real <= s.maxLife
  }

  /**
   * One `update`: drift, age by one frame, and recycle at the bottom of the
   * surface (at horizontal position `rx * width`) once the age passes the
   * lifespan.
   */
  function Step(s: State, width: int, height: int, rx: real): State {
    var x := s.x + s.speedX;
    var y := s.y - s.speedY;
    var life := s.life + 1;
    if life as real > s.maxLife then
      s.(x := rx * width as real, y := height as real + 10.0, life := 0)
    else
      s.(x := x, y := y, life := life)
  }

  /** A particle created from unit draws is inside the documented ranges and its life is in range. */
  lemma SpawnInRanges(d: Draws, width: int, height: int)
    requires UnitDraws(d)
    ensures SpawnRanges(Spawn(d, width, height)) && LifeInRange(Spawn(d, width, height))
  {
  }

  /** A particle created from unit draws on a surface of non-negative size starts on the surface. */
  lemma SpawnOnSurface(d: Draws, width: nat, height: nat)
    requires UnitDraws(d)
    ensures 0.0 <= Spawn(d, width, height).x <= width as real
    ensures 0.0 <= Spawn(d, width, height).y <= height as real
  {
    var s := Spawn(d, width, height);
    calc {
      s.x;
    ==
      d.rx * width as real;
    <= { UnitScale(d.rx, width as real); }
      width as real;
    }
    calc {
      s.y;
    ==
      d.ry * height as real;
    <= { UnitScale(d.ry, height as real); }
      height as real;
    }
    UnitScale(d.rx, width as real);
    UnitScale(d.ry, height as real);
  }

  /** A unit draw scales a non-negative extent to a point inside it. */
  lemma UnitScale(r: real, extent: real)
    requires IsUnit(r) && extent >= 0.0
    ensures 0.0 <= r * extent <= extent
  {
    assert (1.0 - r) * extent >= 0.0;
  }

  /**
   * What one update does: the life counter stays in `[0, maxLife]`, an
   * ordinary tick moves by exactly the velocity, and a recycling tick resets
   * life and position; size, speeds and lifespan never change.
   */
  lemma StepCases(s: State, width: int, height: int, rx: real)
    requires LifeInRange(s)
    ensures LifeInRange(Step(s, width, height, rx))
    ensures var r := Step(s, width, height, rx);
            r.size == s.size && r.speedX == s.speedX && r.speedY == s.speedY && r.maxLife == s.maxLife
    ensures (s.life + 1) as real <= s.maxLife ==>
              Step(s, width, height, rx) == s.(x := s.x + s.speedX, y := s.y - s.speedY, life := s.life + 1)
    ensures (s.life + 1) as real > s.maxLife ==>
              Step(s, width, height, rx) == s.(x := rx * width as real, y := height as real + 10.0, life := 0)
  {
  }

  /** The state after one update per draw in `rs`, on a surface of fixed size. */
  function Run(s: State, width: int, height: int, rs: seq<real>): State
    decreases |rs|
  {
    if rs == [] then s else Run(Step(s, width, height, rs[0]), width, height, rs[1..])
  }

  /**
   * Between recycles the motion is uniform: `n` updates that keep the life
   * counter within the lifespan move the particle by `n` times its velocity.
   */
  lemma {:induction false} RunWithoutRecycle(s: State, width: int, height: int, rs: seq<real>)
    requires (s.life + |rs|) as real <= s.maxLife
    ensures Run(s, width, height, rs) ==
            s.(x := s.x + |rs| as real * s.speedX, y := s.y - |rs| as real * s.speedY, life := s.life + |rs|)
    decreases |rs|
  {
    if rs != [] {
      var s' := Step(s, width, height, rs[0]);
      assert s' == s.(x := s.x + s.speedX, y := s.y - s.speedY, life := s.life + 1);
      RunWithoutRecycle(s', width, height, rs[1..]);
      assert (|rs| - 1) as real * s.speedX + s.speedX == |rs| as real * s.speedX;
      assert (|rs| - 1) as real * s.speedY + s.speedY == |rs| as real * s.speedY;
    }
  }

  /** Since every particle drifts upwards, `y` strictly decreases between recycles. */
  lemma RisesBetweenRecycles(s: State, width: int, height: int, rs: seq<real>)
    requires (s.life + |rs|) as real <= s.maxLife
    requires s.speedY > 0.0 && rs != []
    ensures Run(s, width, height, rs).y < s.y
  {
    RunWithoutRecycle(s, width, height, rs);
    assert |rs| as real * s.speedY >= s.speedY;
  }

  /** Over any run of updates the life counter stays within the particle's unchanged lifespan. */
  lemma {:induction false} RunKeepsLifeInRange(s: State, width: int, height: int, rs: seq<real>)
    requires LifeInRange(s)
    ensures LifeInRange(Run(s, width, height, rs))
    ensures Run(s, width, height, rs).maxLife == s.maxLife
    decreases |rs|
  {
    if rs != [] {
      StepCases(s, width, height, rs[0]);
      RunKeepsLifeInRange(Step(s, width, height, rs[0]), width, height, rs[1..]);
    }
  }

  /** One particle: the fields of the source's `Particle` class, without its opacity. */
  class Particle {
    var x: real
    var y: real
    var size: real
    var speedX: real
    var speedY: real
    var life: int
    var maxLife: real

    function Snapshot(): State
      reads this
    {
      State(x, y, size, speedX, speedY, life, maxLife)
    }

    /** The invariant every particle keeps: life in range, attributes in their creation ranges. */
    predicate Valid()
      reads this
    {
      var s := Snapshot();
      LifeInRange(s) && 200.0 <= s.maxLife < 400.0 && 1.0 <= s.size < 4.0 &&
      -0.25 <= s.speedX < 0.25 && 0.1 <= s.speedY < 0.4
    }

    /** `new Particle()` on a surface whose dimensions are resolved against the window's. */
    constructor (canvas: Canvas, win: Window, d: Draws)
      requires UnitDraws(d)
      ensures Valid()
      ensures Snapshot() == Spawn(d, OrWindow(canvas.width, win.innerWidth), OrWindow(canvas.height, win.innerHeight))
    {
      var width := if canvas.width != 0 then canvas.width else win.innerWidth;
      var height := if canvas.height != 0 then canvas.height else win.innerHeight;
      x := d.rx * width as real;
      y := d.ry * height as real;
      size := d.rSize * 3.0 + 1.0;
      speedX := (d.rSpeedX - 0.5) * 0.5;
      speedY := d.rSpeedY * 0.3 + 0.1;
      life := 0;
      maxLife := d.rMaxLife * 200.0 + 200.0;
      SpawnInRanges(d, width, height);
    }

    /** `update`: one frame of drift and ageing; `rx` is the draw used if the particle is recycled. */
    method Update(canvas: Canvas, win: Window, rx: real)
      requires Valid()
      modifies this
      ensures Valid()
      ensures Snapshot() == Step(old(Snapshot()), OrWindow(canvas.width, win.innerWidth),
                                 OrWindow(canvas.height, win.innerHeight), rx)
    {
      x := x + speedX;
      y := y - speedY;
      life := life + 1;
      if life as real > maxLife {
        life := 0;
        y := (if canvas.height != 0 then canvas.height else win.innerHeight) as real + 10.0;
        x := rx * (if canvas.width != 0 then canvas.width else win.innerWidth) as real;
      }
    }
  }

  /** The mounted particle field: the canvas and the pool that is filled once and updated in place. */
  class ParticleSystem {
    const canvas: Canvas
    var particles: seq<Particle>

    ghost predicate Valid()
      reads this, particles
    {
      && |particles| == ParticleCount
      && (forall i, j :: 0 <= i < j < |particles| ==> particles[i] != particles[j])
      && (forall i :: 0 <= i < |particles| ==> particles[i].Valid())
    }

    /** Mounting: size the canvas to the window, then create the 40 particles from `draws`, in order. */
    constructor (canvas: Canvas, win: Window, draws: seq<Draws>)
      requires |draws| == ParticleCount as int
      requires forall k :: 0 <= k < |draws| ==> UnitDraws(draws[k])
      modifies canvas
      ensures Valid()
      ensures this.canvas == canvas
      ensures canvas.width == win.innerWidth && canvas.height == win.innerHeight
      ensures forall k :: 0 <= k < |particles| ==> fresh(particles[k])
      // The canvas is sized to the window before the particles are made, so they spawn on it.
      ensures forall k :: 0 <= k < |particles| ==>
                particles[k].Snapshot() == Spawn(draws[k], win.innerWidth, win.innerHeight)
    {
      this.canvas := canvas;
      canvas.width := win.innerWidth;
      canvas.height := win.innerHeight;
      var pool: seq<Particle> := [];
      for i := 0 to ParticleCount
        invariant |pool| == i
        invariant canvas.width == win.innerWidth && canvas.height == win.innerHeight
        invariant forall k :: 0 <= k < i ==> fresh(pool[k]) && pool[k].Valid()
        invariant forall a, b :: 0 <= a < b < i ==> pool[a] != pool[b]
        invariant forall k :: 0 <= k < i ==>
                    pool[k].Snapshot() == Spawn(draws[k], win.innerWidth, win.innerHeight)
      {
        var p := new Particle(canvas, win, draws[i]);
        pool := pool + [p];
      }
      particles := pool;
    }

    /**
     * One animation frame: update every particle in pool order. `rs[k]` is
     * the draw particle `k` uses if it is recycled on this frame.
     */
    method Tick(win: Window, rs: seq<real>)
      requires Valid() && |rs| == |particles|
      modifies particles
      ensures Valid() && particles == old(particles)
      ensures forall k :: 0 <= k < |particles| ==>
                particles[k].Snapshot() == Step(old(particles[k].Snapshot()),
                                                OrWindow(canvas.width, win.innerWidth),
                                                OrWindow(canvas.height, win.innerHeight), rs[k])
    {
      for i := 0 to |particles|
        invariant Valid()
        invariant forall k :: 0 <= k < i ==>
                    particles[k].Snapshot() == Step(old(particles[k].Snapshot()),
                                                    OrWindow(canvas.width, win.innerWidth),
                                                    OrWindow(canvas.height, win.innerHeight), rs[k])
        invariant forall k :: i <= k < |particles| ==> particles[k].Snapshot() == old(particles[k].Snapshot())
      {
        particles[i].Update(canvas, win, rs[i]);
      }
    }

    /** `handleResize`: resize the canvas to the window; no particle changes. */
    method Resize(win: Window)
      requires Valid()
      modifies canvas
      ensures Valid() && particles == old(particles)
      ensures canvas.width == win.innerWidth && canvas.height == win.innerHeight
      ensures forall k :: 0 <= k < |particles| ==> particles[k].Snapshot() == old(particles[k].Snapshot())
    {
      canvas.width := win.innerWidth;
      canvas.height := win.innerHeight;
    }
  }
}
