/**
 * The win explosion of the refined game: comets, sparks and embers spawned
 * at the price head, their per-frame motion and fading, and the short-lived
 * flash/shockwave impacts. Random draws and the direction of each particle
 * (the cosine and sine of its angle) are parameters; the sideways wave
 * steering of comets and embers is not part of this model.
 */
module Particles {
  import opened Wrappers
  import opened Numeric
  import opened Payout

  datatype Kind = Comet | Spark | Ember

  datatype Point = Point(x: real, y: real)

  datatype Particle = Particle(
    x: real, y: real, vx: real, vy: real,
    life: real, maxLife: real, size: real,
    kind: Kind, trail: seq<Point>, gravity: real)

  /**
   * The draws for one particle: a direction (the cosine and sine of its
   * angle) and six uniform draws for speed, life, the two spawn offsets,
   * size and gravity.
   */
  datatype Draw = Draw(
    dirX: real, dirY: real,
    speed: real, life: real, jitterX: real, jitterY: real, size: real, gravity: real)

  predicate UnitDraw(d: Draw)
  {
    0.0 <= d.speed < 1.0 && 0.0 <= d.life < 1.0
    && 0.0 <= d.jitterX < 1.0 && 0.0 <= d.jitterY < 1.0
    && 0.0 <= d.size < 1.0 && 0.0 <= d.gravity < 1.0
  }

  const Comets: nat := 6
  const Sparks: nat := 12
  const Embers: nat := 5
  /** Particles per explosion. */
  const ExplosionSize: nat := Comets + Sparks + Embers

  /** Life lost per frame. */
  const LifeStep: real := 0.02
  /** A particle below this fraction of its life is dropped before it moves. */
  const FadeRatio: real := 0.03
  /** Sparks keep this fraction of their velocity each frame. */
  const SparkFriction: real := 0.92
  /** How long an impact flash lasts, in milliseconds. */
  const ImpactDuration: real := 250.0

  /** Trail points a particle keeps: comets 12, embers 6, sparks none. */
  function TrailCap(k: Kind): nat
  {
    match k
    case Comet => 12
    case Spark => 0
    case Ember => 6
  }

  /** A particle as the simulation keeps it: a positive life span of at most one, and a short trail. */
  ghost predicate WellFormed(p: Particle)
  {
    0.0 < p.maxLife <= 1.0 && p.life <= p.maxLife && |p.trail| <= TrailCap(p.kind)
  }

  /** Offset of a spawn position: a uniform draw centred on zero and scaled to `spread`. */
  function Jitter(r: real, spread: real): (j: real)
    requires 0.0 < spread
    ensures 0.0 <= r < 1.0 ==> -spread / 2.0 <= j < spread / 2.0
  {
    JitterBound(r, spread);
    (r - 0.5) * spread
  }

  lemma JitterBound(r: real, spread: real)
    requires 0.0 < spread
    ensures 0.0 <= r < 1.0 ==> -spread / 2.0 <= (r - 0.5) * spread < spread / 2.0
  {
    if 0.0 <= r < 1.0 {
      MulMonotone(-0.5, r - 0.5, spread);
      MulStrict(r - 0.5, 0.5, spread);
    }
  }

  /** A comet: fast (speed 3 to 6), long-lived (0.4 to 0.7), with a 12-point trail starting at the centre. */
  function NewComet(x: real, y: real, d: Draw): (p: Particle)
    ensures p.kind == Comet && p.trail == [Point(x, y)] && p.life == p.maxLife
    ensures UnitDraw(d) ==>
      0.4 <= p.life < 0.7 && 2.5 <= p.size < 4.5 && 0.03 <= p.gravity < 0.05
      && Abs(p.x - x) <= 2.0 && Abs(p.y - y) <= 2.0 && WellFormed(p)
  {
    var speed := 3.0 + d.speed * 3.0;
    var life := 0.4 + d.life * 0.3;
    Particle(x + Jitter(d.jitterX, 4.0), y + Jitter(d.jitterY, 4.0),
      d.dirX * speed, d.dirY * speed, life, life, 2.5 + d.size * 2.0,
      Comet, [Point(x, y)], 0.03 + d.gravity * 0.02)
  }

  /** A spark: very fast (4 to 10), short-lived (0.15 to 0.35), no trail, constant gravity. */
  function NewSpark(x: real, y: real, d: Draw): (p: Particle)
    ensures p.kind == Spark && p.trail == [] && p.life == p.maxLife && p.gravity == 0.02
    ensures UnitDraw(d) ==>
      0.15 <= p.life < 0.35 && 1.5 <= p.size < 3.0
      && Abs(p.x - x) <= 3.0 && Abs(p.y - y) <= 3.0 && WellFormed(p)
  {
    var speed := 4.0 + d.speed * 6.0;
    var life := 0.15 + d.life * 0.2;
    Particle(x + Jitter(d.jitterX, 6.0), y + Jitter(d.jitterY, 6.0),
      d.dirX * speed, d.dirY * speed, life, life, 1.5 + d.size * 1.5,
      Spark, [], 0.02)
  }

  /** An ember: slow (1.5 to 4) with an upward push of 0.8, longest-lived (0.5 to 0.9), a 6-point trail. */
  function NewEmber(x: real, y: real, d: Draw): (p: Particle)
    ensures p.kind == Ember && p.trail == [Point(x, y)] && p.life == p.maxLife
    ensures UnitDraw(d) ==>
      0.5 <= p.life < 0.9 && 2.0 <= p.size < 3.5 && 0.04 <= p.gravity < 0.07
      && Abs(p.x - x) <= 4.0 && Abs(p.y - y) <= 4.0 && WellFormed(p)
  {
    var speed := 1.5 + d.speed * 2.5;
    var life := 0.5 + d.life * 0.4;
    Particle(x + Jitter(d.jitterX, 8.0), y + Jitter(d.jitterY, 8.0),
      d.dirX * speed, d.dirY * speed - 0.8, life, life, 2.0 + d.size * 1.5,
      Ember, [Point(x, y)], 0.04 + d.gravity * 0.03)
  }

  /** The particle spawned from draw number i of an explosion: comets, then sparks, then embers. */
  function Spawned(x: real, y: real, d: Draw, i: nat): (p: Particle)
    ensures p.kind == (if i < Comets then Comet else if i < Comets + Sparks then Spark else Ember)
    ensures UnitDraw(d) ==> WellFormed(p) && p.life == p.maxLife
  {
    if i < Comets then NewComet(x, y, d)
    else if i < Comets + Sparks then NewSpark(x, y, d)
    else NewEmber(x, y, d)
  }

  /** The 23 particles of one explosion at (x, y). */
  function Explosion(x: real, y: real, draws: seq<Draw>): (ps: seq<Particle>)
    requires |draws| == ExplosionSize
    ensures |ps| == ExplosionSize
    ensures (forall d :: d in draws ==> UnitDraw(d)) ==> forall p :: p in ps ==> WellFormed(p)
  {
    seq(ExplosionSize, i requires 0 <= i < ExplosionSize => Spawned(x, y, draws[i], i))
  }

  /**
   * The motion part of a frame: comets and embers move by their velocity
   * scaled by the ease-out of their remaining life fraction `ratio`; sparks
   * move by their full velocity and then slow by friction.
   */
  function Move(p: Particle, ratio: real): (m: Particle)
    ensures m.life == p.life && m.maxLife == p.maxLife && m.kind == p.kind
    ensures m.size == p.size && m.gravity == p.gravity && m.trail == p.trail
    ensures p.kind == Spark ==> m.x == p.x + p.vx && m.y == p.y + p.vy && m.vx == SparkFriction * p.vx
    ensures p.kind != Spark && 0.0 <= ratio <= 1.0 ==>
      Abs(m.x - p.x) <= Abs(p.vx) && Abs(m.y - p.y) <= Abs(p.vy) && m.vx == p.vx && m.vy == p.vy
  {
    if p.kind == Spark then
      p.(x := p.x + p.vx, y := p.y + p.vy, vx := p.vx * SparkFriction, vy := p.vy * SparkFriction)
    else
      var e := EaseOutExpo(ratio);
      EasedStep(p.vx, ratio);
      EasedStep(p.vy, ratio);
      p.(x := p.x + p.vx * e, y := p.y + p.vy * e)
  }

  /**
   * One frame of a particle, or None when it is dropped. A particle below
   * 3% of its life is dropped first; otherwise it moves, gravity is added
   * to its vertical velocity, life drops by 0.02, and a particle whose life
   * is used up is dropped. Comets and embers then record their position in
   * their trail.
   */
  function Advance(p: Particle): (o: Option<Particle>)
    requires p.maxLife > 0.0
    ensures o.None? <==> p.life / p.maxLife < FadeRatio || p.life - LifeStep <= 0.0
    ensures o.Some? ==>
      var q := o.value;
      q.life == p.life - LifeStep && 0.0 < q.life
      && q.maxLife == p.maxLife && q.kind == p.kind && q.size == p.size && q.gravity == p.gravity
    ensures o.Some? && WellFormed(p) ==> WellFormed(o.value)
    ensures o.Some? && p.kind != Spark ==>
      o.value.trail == KeepLast(p.trail + [Point(o.value.x, o.value.y)], TrailCap(p.kind))
    ensures o.Some? && p.kind != Spark && WellFormed(p) ==>
      Abs(o.value.x - p.x) <= Abs(p.vx) && Abs(o.value.y - p.y) <= Abs(p.vy)
    ensures o.Some? && p.kind == Spark ==>
      o.value.trail == p.trail && o.value.vx == SparkFriction * p.vx
  {
    var ratio := p.life / p.maxLife;
    if ratio < FadeRatio then None
    else
      var moved := Move(p, ratio);
      var fallen := moved.(vy := moved.vy + p.gravity, life := p.life - LifeStep);
      if fallen.life <= 0.0 then None
      else if p.kind == Spark then Some(fallen)
      else
        LifeFraction(p.life, p.maxLife);
        Some(fallen.(trail := KeepLast(p.trail + [Point(fallen.x, fallen.y)], TrailCap(p.kind))))
  }

  /** Every particle can be advanced: its life span is positive. */
  ghost predicate Advanceable(ps: seq<Particle>)
  {
    forall i :: 0 <= i < |ps| ==> ps[i].maxLife > 0.0
  }

  /** The particles after one frame, in their order, dead ones removed. */
  function Survivors(ps: seq<Particle>): (r: seq<Particle>)
    requires Advanceable(ps)
    ensures |r| <= |ps| && Advanceable(r)
    ensures forall q :: q in r ==> 0.0 < q.life
    ensures (forall p :: p in ps ==> WellFormed(p)) ==> forall q :: q in r ==> WellFormed(q)
  {
    if ps == [] then []
    else
      var init, last := ps[..|ps| - 1], ps[|ps| - 1];
      assert forall p :: p in init ==> p in ps;
      Survivors(init) + (match Advance(last) case None => [] case Some(q) => [q])
  }

  /** A frame takes 0.02 off every surviving particle's life. */
  lemma {:induction false} SurvivorsAge(ps: seq<Particle>, bound: real)
    requires Advanceable(ps)
    requires forall p :: p in ps ==> p.life <= bound
    ensures forall q :: q in Survivors(ps) ==> q.life <= bound - LifeStep
  {
    if ps != [] {
      var init := ps[..|ps| - 1];
      assert forall p :: p in init ==> p in ps;
      SurvivorsAge(init, bound);
    }
  }

  /** The particles after n frames. */
  function AfterFrames(ps: seq<Particle>, n: nat): seq<Particle>
    requires Advanceable(ps)
    decreases n
  {
    if n == 0 then ps else AfterFrames(Survivors(ps), n - 1)
  }

  /** Particles whose life is at most n frames' worth are all gone after n frames. */
  lemma {:induction false} BurnOut(ps: seq<Particle>, n: nat)
    requires Advanceable(ps) && 1 <= n
    requires forall p :: p in ps ==> p.life <= LifeStep * n as real
    ensures AfterFrames(ps, n) == []
    decreases n
  {
    var next := Survivors(ps);
    SurvivorsAge(ps, LifeStep * n as real);
    if n == 1 {
      LastFrame(ps);
    } else {
      BurnOut(next, n - 1);
    }
  }

  /** Particles with at most one frame of life left all die in the next frame. */
  lemma {:induction false} LastFrame(ps: seq<Particle>)
    requires Advanceable(ps)
    requires forall p :: p in ps ==> p.life <= LifeStep
    ensures Survivors(ps) == []
  {
    if ps != [] {
      var init := ps[..|ps| - 1];
      assert forall p :: p in init ==> p in ps;
      LastFrame(init);
      assert ps[|ps| - 1] in ps;
    }
  }

  /** Every well-formed particle is gone within 50 frames. */
  lemma AllGoneWithinFiftyFrames(ps: seq<Particle>)
    requires forall p :: p in ps ==> WellFormed(p)
    ensures Advanceable(ps) && AfterFrames(ps, 50) == []
  {
    assert Advanceable(ps) by {
      forall i | 0 <= i < |ps| ensures ps[i].maxLife > 0.0 {
        assert ps[i] in ps;
      }
    }
    BurnOut(ps, 50);
  }

  /** An impact flash centred at (x, y), started at `startTime` milliseconds. */
  datatype Impact = Impact(x: real, y: real, startTime: real)

  /** The impacts still showing at time `now`: those at most 250 ms old, in their order. */
  function LiveImpacts(impacts: seq<Impact>, now: real): (r: seq<Impact>)
    ensures |r| <= |impacts|
  {
    if impacts == [] then []
    else
      var init, last := impacts[..|impacts| - 1], impacts[|impacts| - 1];
      LiveImpacts(init, now) + (if now - last.startTime > ImpactDuration then [] else [last])
  }

  /** An impact is still showing exactly when it was there and is at most 250 ms old. */
  lemma {:induction false} LiveImpactMember(impacts: seq<Impact>, now: real, m: Impact)
    ensures m in LiveImpacts(impacts, now) <==> m in impacts && now - m.startTime <= ImpactDuration
  {
    if impacts != [] {
      var init, last := impacts[..|impacts| - 1], impacts[|impacts| - 1];
      LiveImpactMember(init, now, m);
      assert impacts == init + [last];
    }
  }

  /** The particles and impacts on screen, updated in place each frame. */
  class Effects {
    var particles: seq<Particle>
    var impacts: seq<Impact>

    ghost predicate Valid()
      reads this
    {
      forall p :: p in particles ==> WellFormed(p)
    }

    constructor()
      ensures Valid() && particles == [] && impacts == []
    {
      particles := [];
      impacts := [];
    }

    /** Record an impact at (x, y) and add the 23 particles of an explosion there. */
    method SpawnExplosion(x: real, y: real, now: real, draws: seq<Draw>)
      requires Valid()
      requires |draws| == ExplosionSize && forall d :: d in draws ==> UnitDraw(d)
      modifies this
      ensures Valid()
      ensures impacts == old(impacts) + [Impact(x, y, now)]
      ensures particles == old(particles) + Explosion(x, y, draws)
    {
      impacts := impacts + [Impact(x, y, now)];
      ghost var all := Explosion(x, y, draws);
      var spawned: seq<Particle> := [];
      for i := 0 to Comets
        invariant spawned == all[..i]
      {
        spawned := spawned + [NewComet(x, y, draws[i])];
      }
      for i := Comets to Comets + Sparks
        invariant spawned == all[..i]
      {
        spawned := spawned + [NewSpark(x, y, draws[i])];
      }
      for i := Comets + Sparks to ExplosionSize
        invariant spawned == all[..i]
      {
        spawned := spawned + [NewEmber(x, y, draws[i])];
      }
      assert spawned == all;
      particles := particles + spawned;
    }

    /** Advance every particle by one frame and drop the dead ones. */
    method UpdateParticles()
      requires Valid()
      modifies this
      ensures Valid()
      ensures Advanceable(old(particles)) && particles == Survivors(old(particles))
      ensures impacts == old(impacts)
    {
      assert Advanceable(particles) by {
        forall i | 0 <= i < |particles| ensures particles[i].maxLife > 0.0 {
          assert particles[i] in particles;
        }
      }
      var kept: seq<Particle> := [];
      for i := 0 to |particles|
        invariant kept == Survivors(particles[..i])
      {
        assert particles[..i + 1][..i] == particles[..i];
        var p := particles[i];
        var next := Advance(p);
        if next.Some? {
          kept := kept + [next.value];
        }
      }
      assert particles[..|particles|] == particles;
      particles := kept;
    }

    /** Forget the impacts older than 250 ms. */
    method ExpireImpacts(now: real)
      modifies this
      ensures impacts == LiveImpacts(old(impacts), now)
      ensures particles == old(particles)
    {
      var kept: seq<Impact> := [];
      for i := 0 to |impacts|
        invariant kept == LiveImpacts(impacts[..i], now)
      {
        assert impacts[..i + 1][..i] == impacts[..i];
        var elapsed := now - impacts[i].startTime;
        if elapsed <= ImpactDuration {
          kept := kept + [impacts[i]];
        }
      }
      assert impacts[..|impacts|] == impacts;
      impacts := kept;
    }
  }
}
