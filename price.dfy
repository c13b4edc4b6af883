/**
 * The per-tick price dynamics shared by both variants: the clamped frame
 * delta, the damped and bounded price velocity with occasional random
 * shocks, and the rolling price trail. The two variants differ only in
 * their constants, collected in `Dynamics`.
 */
module PriceProcess {
  import opened Numeric

  /** Longest frame step the simulation accepts, in milliseconds. */
  const MaxFrameDelta: real := 50.0
  /** Horizontal scroll speed in pixels per millisecond (also the trail aging rate). */
  const ScrollRate: real := 0.04

  /**
   * Milliseconds elapsed since the previous frame, clamped to 50. A last
   * time of zero means "no previous frame", so the first frame advances by 0.
   */
  function FrameDelta(timestamp: real, lastTime: real): (delta: real)
    ensures delta <= MaxFrameDelta
    ensures lastTime == 0.0 ==> delta == 0.0
    ensures lastTime <= timestamp ==> 0.0 <= delta
    ensures 0.0 < lastTime && timestamp - lastTime <= MaxFrameDelta ==> delta == timestamp - lastTime
  {
    var previous := if lastTime == 0.0 then timestamp else lastTime;
    var elapsed := timestamp - previous;
    if elapsed <= MaxFrameDelta then elapsed else MaxFrameDelta
  }

  /** Constants of the velocity process. */
  datatype Dynamics = Dynamics(shockThreshold: real, shockScale: real, damping: real, limit: real)

  /** Refined game: 8% shock chance of up to +-0.01, damping 0.85, speed limit 0.03. */
  const RefinedDynamics: Dynamics := Dynamics(0.92, 0.02, 0.85, 0.03)
  /** Reference variant: 2% shock chance of up to +-0.005, damping 0.95, speed limit 0.02. */
  const ConceptDynamics: Dynamics := Dynamics(0.98, 0.01, 0.95, 0.02)

  function Clamp(x: real, limit: real): (c: real)
    requires 0.0 <= limit
    ensures -limit <= c <= limit
    ensures Abs(c) <= Abs(x)
    ensures -limit <= x <= limit ==> c == x
  {
    if x > limit then limit else if x < -limit then -limit else x
  }

  /**
   * One velocity step: when the roll exceeds the threshold, a shock
   * `(draw - 0.5) * shockScale` is added; then the velocity is damped and
   * clamped to [-limit, limit].
   */
  function StepVelocity(dyn: Dynamics, v: real, roll: real, draw: real): (v': real)
    requires 0.0 <= dyn.limit
    ensures -dyn.limit <= v' <= dyn.limit
  {
    var kicked := if roll > dyn.shockThreshold then v + (draw - 0.5) * dyn.shockScale else v;
    Clamp(kicked * dyn.damping, dyn.limit)
  }

  /** Without a shock, damping never speeds the price up. */
  lemma {:induction false} CalmStepSlowsDown(dyn: Dynamics, v: real, roll: real, draw: real)
    requires 0.0 <= dyn.limit && 0.0 <= dyn.damping <= 1.0
    requires roll <= dyn.shockThreshold
    ensures Abs(StepVelocity(dyn, v, roll, draw)) <= dyn.damping * Abs(v) <= Abs(v)
  {
    var damped := v * dyn.damping;
    assert StepVelocity(dyn, v, roll, draw) == Clamp(damped, dyn.limit);
    AbsScale(v, dyn.damping);
    MulMonotone(dyn.damping, 1.0, Abs(v));
  }

  /** A shock moves the velocity by at most half the shock scale before damping. */
  lemma ShockIsBounded(dyn: Dynamics, v: real, draw: real)
    requires 0.0 <= dyn.shockScale && 0.0 <= draw < 1.0
    ensures Abs((draw - 0.5) * dyn.shockScale) <= 0.5 * dyn.shockScale
  {
    if draw < 0.5 {
      assert (0.5 - draw) * dyn.shockScale <= 0.5 * dyn.shockScale;
    } else {
      assert (draw - 0.5) * dyn.shockScale <= 0.5 * dyn.shockScale;
    }
  }

  /** One sample of the rolling price trail: a price and how far (in pixels) it has scrolled. */
  datatype TrailPoint = TrailPoint(y: real, age: real)

  /** Every sample scrolled further by `step` pixels. */
  function Aged(trail: seq<TrailPoint>, step: real): (r: seq<TrailPoint>)
    ensures |r| == |trail|
    ensures forall i :: 0 <= i < |r| ==> r[i].y == trail[i].y && r[i].age == trail[i].age + step
  {
    seq(|trail|, i requires 0 <= i < |trail| => trail[i].(age := trail[i].age + step))
  }

  /** The samples younger than `maxAge`, in their original order. */
  function KeepYoung(trail: seq<TrailPoint>, maxAge: real): (r: seq<TrailPoint>)
    ensures |r| <= |trail|
  {
    if trail == [] then []
    else if trail[0].age < maxAge then [trail[0]] + KeepYoung(trail[1..], maxAge)
    else KeepYoung(trail[1..], maxAge)
  }

  /** A sample survives exactly when it was on the trail and is younger than `maxAge`. */
  lemma {:induction false} KeepYoungMembers(trail: seq<TrailPoint>, maxAge: real, p: TrailPoint)
    ensures p in KeepYoung(trail, maxAge) <==> p in trail && p.age < maxAge
  {
    if trail != [] {
      KeepYoungMembers(trail[1..], maxAge, p);
      assert p in trail <==> p == trail[0] || p in trail[1..];
    }
  }

  /** Newest sample first: ages never decrease along the trail. */
  ghost predicate NewestFirst(trail: seq<TrailPoint>)
  {
    forall i, j :: 0 <= i < j < |trail| ==> trail[i].age <= trail[j].age
  }

  lemma {:induction false} KeepYoungKeepsOrder(trail: seq<TrailPoint>, maxAge: real)
    requires NewestFirst(trail)
    ensures NewestFirst(KeepYoung(trail, maxAge))
  {
    if trail != [] {
      KeepYoungKeepsOrder(trail[1..], maxAge);
      var rest := KeepYoung(trail[1..], maxAge);
      if trail[0].age < maxAge {
        forall p | p in rest ensures trail[0].age <= p.age {
          KeepYoungMembers(trail[1..], maxAge, p);
        }
      }
    }
  }

  /**
   * One trail update: age every sample, put the new price in front with
   * age 0, and forget samples at least `maxAge` old.
   */
  function AdvanceTrail(trail: seq<TrailPoint>, step: real, y: real, maxAge: real): seq<TrailPoint>
  {
    KeepYoung([TrailPoint(y, 0.0)] + Aged(trail, step), maxAge)
  }

  /**
   * The trail stays newest-first with non-negative ages below `maxAge`, and
   * its head is the current price whenever the age limit is positive.
   */
  lemma {:induction false} AdvanceTrailInvariant(trail: seq<TrailPoint>, step: real, y: real, maxAge: real)
    requires NewestFirst(trail) && forall p :: p in trail ==> 0.0 <= p.age
    requires 0.0 <= step
    ensures var t := AdvanceTrail(trail, step, y, maxAge);
            NewestFirst(t) && (forall p :: p in t ==> 0.0 <= p.age < maxAge)
            && (0.0 < maxAge ==> t != [] && t[0] == TrailPoint(y, 0.0))
            && |t| <= |trail| + 1
  {
    var full := [TrailPoint(y, 0.0)] + Aged(trail, step);
    assert NewestFirst(full) by {
      forall i, j | 0 <= i < j < |full| ensures full[i].age <= full[j].age {
        if i > 0 {
          assert full[i] == Aged(trail, step)[i - 1];
          assert full[j] == Aged(trail, step)[j - 1];
        } else {
          assert full[j] == Aged(trail, step)[j - 1];
          assert trail[j - 1] in trail;
        }
      }
    }
    assert forall p :: p in full ==> 0.0 <= p.age by {
      forall p | p in full ensures 0.0 <= p.age {
        var k :| 0 <= k < |full| && full[k] == p;
        if k > 0 {
          assert trail[k - 1] in trail;
        }
      }
    }
    KeepYoungKeepsOrder(full, maxAge);
    forall p | p in KeepYoung(full, maxAge) ensures 0.0 <= p.age < maxAge {
      KeepYoungMembers(full, maxAge, p);
    }
    if 0.0 < maxAge {
      assert KeepYoung(full, maxAge) == [full[0]] + KeepYoung(full[1..], maxAge);
    }
  }
}
