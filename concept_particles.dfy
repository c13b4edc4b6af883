/**
 * The particle burst of the reference variant: 24 particles thrown out
 * around a point, moving by their velocity eased by their remaining life,
 * falling under a little gravity and fading by a fixed amount per frame,
 * each dragging a trail of at most 18 points. The direction of each
 * particle (the cosine and sine of its angle) and the uniform draws are
 * parameters; the sideways wave steering is not part of this model.
 */
module ConceptParticles {
  import opened Wrappers
  import opened Numeric
  import opened Payout

  /** Particles per burst. */
  const BurstSize: nat := 24
  /** Life lost per frame. */
  const FadeStep: real := 0.03
  /** Added to the vertical velocity every frame. */
  const Gravity: real := 0.04
  /** Trail points a particle keeps. */
  const TrailLength: nat := 18

  datatype Point = Point(x: real, y: real)

  datatype Particle = Particle(
    x: real, y: real, vx: real, vy: real,
    life: real, maxLife: real, size: real, trail: seq<Point>)

  /**
   * The draws for one particle: its direction (the cosine and sine of its
   * angle) and uniform draws for its speed, its two spawn offsets and its size.
   */
  datatype BurstDraw = BurstDraw(dirX: real, dirY: real, speed: real, jitterX: real, jitterY: real, size: real)

  predicate UnitDraw(d: BurstDraw)
  {
    -1.0 <= d.dirX <= 1.0 && -1.0 <= d.dirY <= 1.0
    && 0.0 <= d.speed < 1.0 && 0.0 <= d.jitterX < 1.0 && 0.0 <= d.jitterY < 1.0 && 0.0 <= d.size < 1.0
  }

  /** A particle as the burst creates it and the frames keep it: a unit life span and a non-empty, bounded trail. */
  predicate WellFormed(p: Particle)
  {
    p.maxLife == 1.0 && p.life <= 1.0 && 1 <= |p.trail| <= TrailLength
  }

  /** The tenth power of `d`, computed by repeated squaring. */
  lemma TenthPower(d: real)
    ensures (((d * d) * (d * d)) * ((d * d) * (d * d))) * (d * d) == Pow(d, 10)
  {
    assert Pow(d, 1) == d * Pow(d, 0) == d;
    assert Pow(d, 2) == d * Pow(d, 1) == d * d;
    PowAdd(d, 2, 2);
    PowAdd(d, 4, 4);
    PowAdd(d, 8, 2);
  }

  /**
   * The ease-out as this variant computes it, squaring the remaining
   * fraction three times; it is the same curve as the tenth-power ease-out.
   */
  function Ease(t: real): (e: real)
    ensures e == EaseOutExpo(t)
    ensures 0.0 <= t <= 1.0 ==> 0.0 <= e <= 1.0
  {
    var decay := 1.0 - t;
    var decay2 := decay * decay;
    var decay4 := decay2 * decay2;
    var decay8 := decay4 * decay4;
    TenthPower(decay);
    1.0 - decay8 * decay2
  }

  /** A unit direction component times a non-negative speed is no faster than the speed. */
  lemma SpeedBound(dir: real, speed: real)
    ensures -1.0 <= dir <= 1.0 && 0.0 <= speed ==> Abs(dir * speed) <= speed
  {
    if -1.0 <= dir <= 1.0 && 0.0 <= speed {
      AbsScale(dir, speed);
      MulMonotone(Abs(dir), 1.0, speed);
    }
  }

  /**
   * A fresh particle: speed 12 to 20 in the drawn direction, spawned up to
   * 3 pixels off the centre in each axis, full life, a trail holding only
   * its spawn point.
   */
  function Fresh(x: real, y: real, d: BurstDraw): (p: Particle)
    ensures p.life == 1.0 && WellFormed(p) && p.trail == [Point(p.x, p.y)]
    ensures UnitDraw(d) ==>
      Abs(p.x - x) <= 3.0 && Abs(p.y - y) <= 3.0 && 2.5 <= p.size < 4.5
      && Abs(p.vx) < 20.0 && Abs(p.vy) < 20.0
  {
    var speed := 12.0 + d.speed * 8.0;
    var offsetX := (d.jitterX - 0.5) * 6.0;
    var offsetY := (d.jitterY - 0.5) * 6.0;
    SpeedBound(d.dirX, speed);
    SpeedBound(d.dirY, speed);
    Particle(x + offsetX, y + offsetY, d.dirX * speed, d.dirY * speed,
      1.0, 1.0, 2.5 + d.size * 2.0, [Point(x + offsetX, y + offsetY)])
  }

  /** The 24 particles of one burst at (x, y). */
  function Burst(x: real, y: real, draws: seq<BurstDraw>): (ps: seq<Particle>)
    requires |draws| == BurstSize
    ensures |ps| == BurstSize
    ensures forall p :: p in ps ==> WellFormed(p) && p.life == 1.0
  {
    seq(BurstSize, i requires 0 <= i < BurstSize => Fresh(x, y, draws[i]))
  }

  /** Shown this frame: alive, with at least two trail points to draw. */
  predicate Visible(p: Particle)
  {
    p.life > 0.0 && |p.trail| >= 2
  }

  /**
   * One frame of a particle: it moves by its velocity scaled by the
   * ease-out of its life fraction (`Ease`, written here in its tenth-power
   * form), gravity is added to its vertical velocity, it loses 0.03 of
   * life, and its new position joins the end of its trail, of which the
   * last 18 points are kept.
   */
  function Update(p: Particle): (q: Particle)
    requires p.maxLife != 0.0
    ensures q.life == p.life - FadeStep && q.maxLife == p.maxLife && q.size == p.size
    ensures q.vx == p.vx && q.vy == p.vy + Gravity
    ensures q.trail == KeepLast(p.trail + [Point(q.x, q.y)], TrailLength)
    ensures WellFormed(p) ==> WellFormed(q)
    ensures 1 <= |p.trail| ==> (Visible(q) <==> p.life > FadeStep)
  {
    var e := EaseOutExpo(p.life / p.maxLife);
    var x := p.x + p.vx * e;
    var y := p.y + p.vy * e;
    Particle(x, y, p.vx, p.vy + Gravity, p.life - FadeStep, p.maxLife, p.size,
      KeepLast(p.trail + [Point(x, y)], TrailLength))
  }

  /** A live, well-formed particle moves by at most its velocity in each axis. */
  lemma UpdateStepIsBounded(p: Particle)
    requires WellFormed(p) && 0.0 <= p.life
    ensures Abs(Update(p).x - p.x) <= Abs(p.vx) && Abs(Update(p).y - p.y) <= Abs(p.vy)
  {
    var e := EaseOutExpo(p.life / p.maxLife);
    assert p.life / p.maxLife == p.life;
    EasedStep(p.vx, p.life);
    EasedStep(p.vy, p.life);
    var q := Update(p);
    StepBound(p.x, q.x, p.vx, e);
    StepBound(p.y, q.y, p.vy, e);
  }

  /** A coordinate moved by a step no longer than the velocity moves by at most the velocity. */
  lemma StepBound(a: real, a': real, v: real, e: real)
    requires a' == a + v * e && Abs(v * e) <= Abs(v)
    ensures Abs(a' - a) <= Abs(v)
  {
    assert a' - a == v * e;
  }

  /** Every particle has a non-zero life span, so its life fraction is defined. */
  ghost predicate Updatable(ps: seq<Particle>)
  {
    forall i :: 0 <= i < |ps| ==> ps[i].maxLife != 0.0
  }

  /** The particles after one frame, in their order, the ones no longer visible removed. */
  function NextFrame(ps: seq<Particle>): (r: seq<Particle>)
    requires Updatable(ps)
    ensures |r| <= |ps| && Updatable(r)
  {
    if ps == [] then []
    else
      var rest := NextFrame(ps[..|ps| - 1]);
      var q := Update(ps[|ps| - 1]);
      if Visible(q) then rest + [q] else rest
  }

  /** A frame keeps every particle well formed. */
  lemma {:induction false} NextFrameKeepsWellFormed(ps: seq<Particle>)
    requires Updatable(ps) && forall p :: p in ps ==> WellFormed(p)
    ensures forall q :: q in NextFrame(ps) ==> WellFormed(q)
  {
    if ps != [] {
      var init := ps[..|ps| - 1];
      assert forall p :: p in init ==> p in ps;
      NextFrameKeepsWellFormed(init);
      assert ps[|ps| - 1] in ps;
    }
  }

  /** A frame takes 0.03 off every surviving particle's life. */
  lemma {:induction false} NextFrameAges(ps: seq<Particle>, bound: real)
    requires Updatable(ps)
    requires forall p :: p in ps ==> p.life <= bound
    ensures forall q :: q in NextFrame(ps) ==> q.life <= bound - FadeStep
  {
    if ps != [] {
      var init := ps[..|ps| - 1];
      assert forall p :: p in init ==> p in ps;
      NextFrameAges(init, bound);
      assert ps[|ps| - 1] in ps;
    }
  }

  /** The particles after n frames. */
  function Frames(ps: seq<Particle>, n: nat): seq<Particle>
    requires Updatable(ps)
    decreases n
  {
    if n == 0 then ps else Frames(NextFrame(ps), n - 1)
  }

  /** Particles with at most one frame of life left are all gone after the next frame. */
  lemma {:induction false} FinalFrame(ps: seq<Particle>)
    requires Updatable(ps)
    requires forall p :: p in ps ==> p.life <= FadeStep
    ensures NextFrame(ps) == []
  {
    if ps != [] {
      var init := ps[..|ps| - 1];
      assert forall p :: p in init ==> p in ps;
      FinalFrame(init);
      assert ps[|ps| - 1] in ps;
    }
  }

  /** Particles whose life is at most n frames' worth are all gone after n frames. */
  lemma {:induction false} FadeOut(ps: seq<Particle>, n: nat)
    requires Updatable(ps) && 1 <= n
    requires forall p :: p in ps ==> p.life <= FadeStep * n as real
    ensures Frames(ps, n) == []
    decreases n
  {
    var next := NextFrame(ps);
    assert Frames(ps, n) == Frames(next, n - 1);
    if n == 1 {
      FinalFrame(ps);
    } else {
      NextFrameAges(ps, FadeStep * n as real);
      assert FadeStep * n as real - FadeStep == FadeStep * (n - 1) as real;
      FadeOut(next, n - 1);
    }
  }

  /** Every well-formed particle, a fresh one included, is gone within 34 frames. */
  lemma AllGoneWithinThirtyFourFrames(ps: seq<Particle>)
    requires forall p :: p in ps ==> WellFormed(p)
    ensures Updatable(ps) && Frames(ps, 34) == []
  {
    assert Updatable(ps) by {
      forall i | 0 <= i < |ps| ensures ps[i].maxLife != 0.0 {
        assert ps[i] in ps;
      }
    }
    FadeOut(ps, 34);
  }
}
