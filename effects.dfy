/** Lifetimes of the visual effects (game.js:1830-1882): the particles and
    the expanding ring of `createExplosion`, and the per-frame update that
    moves them and drops the ones that are spent. The random particle
    velocities are an input. */
module Effects {

  const FRICTION: real := 0.98
  const PARTICLE_LIFE: int := 30
  const RING_RADIUS: real := 5.0
  const RING_MAX_RADIUS: real := 50.0
  const RING_SPEED: real := 3.0
  const RING_LIFE: int := 20

  datatype Particle = Particle(x: real, y: real, vx: real, vy: real, life: int)

  datatype Ring = Ring(x: real, y: real, radius: real, maxRadius: real, speed: real, life: int)

  /** `createExplosion(x, y)`: one particle per velocity pair, all at (x, y)
      with 30 frames to live, and one ring of radius 5. */
  function Burst(x: real, y: real, velocities: seq<(real, real)>): (r: (seq<Particle>, Ring))
    ensures |r.0| == |velocities|
    ensures forall i :: 0 <= i < |r.0| ==>
      r.0[i] == Particle(x, y, velocities[i].0, velocities[i].1, PARTICLE_LIFE)
    ensures r.1 == Ring(x, y, RING_RADIUS, RING_MAX_RADIUS, RING_SPEED, RING_LIFE)
  {
    (seq(|velocities|, i requires 0 <= i < |velocities| =>
       Particle(x, y, velocities[i].0, velocities[i].1, PARTICLE_LIFE)),
     Ring(x, y, RING_RADIUS, RING_MAX_RADIUS, RING_SPEED, RING_LIFE))
  }

  // ------------------------------------------------------------ particles

  /** One frame of one particle: move, apply friction, age. */
  function StepParticle(p: Particle): Particle {
    Particle(p.x + p.vx, p.y + p.vy, p.vx * FRICTION, p.vy * FRICTION, p.life - 1)
  }

  predicate ParticleSpent(p: Particle) { p.life <= 0 }

  /** One `updateParticles`: every particle steps, spent ones disappear, the
      order of the rest is kept. */
  function TickParticles(ps: seq<Particle>): (r: seq<Particle>)
    ensures |r| <= |ps|
    ensures forall q :: q in r ==> q.life >= 1
    decreases |ps|
  {
    if ps == [] then []
    else
      var q := StepParticle(ps[0]);
      if ParticleSpent(q) then TickParticles(ps[1..]) else [q] + TickParticles(ps[1..])
  }

  /** A particle with two or more frames left survives the update, moved,
      slowed and aged; every survivor is such a stepped input particle. */
  lemma {:induction false} TickParticlesSurvivors(ps: seq<Particle>)
    ensures forall p :: p in ps && p.life >= 2 ==> StepParticle(p) in TickParticles(ps)
    ensures forall q :: q in TickParticles(ps) ==> exists p :: p in ps && q == StepParticle(p)
    decreases |ps|
  {
    if ps != [] {
      TickParticlesSurvivors(ps[1..]);
      assert forall p :: p in ps ==> p == ps[0] || p in ps[1..];
      assert forall p :: p in ps[1..] ==> p in ps;
    }
  }

  /** The update keeps the order: it works on each part of a list apart. */
  lemma {:induction false} TickParticlesAppend(a: seq<Particle>, b: seq<Particle>)
    ensures TickParticles(a + b) == TickParticles(a) + TickParticles(b)
    decreases |a|
  {
    if a != [] {
      assert (a + b)[0] == a[0] && (a + b)[1..] == a[1..] + b;
      TickParticlesAppend(a[1..], b);
      if !ParticleSpent(StepParticle(a[0])) {
        assert [StepParticle(a[0])] + (TickParticles(a[1..]) + TickParticles(b))
          == ([StepParticle(a[0])] + TickParticles(a[1..])) + TickParticles(b);
      }
    } else {
      assert a + b == b;
    }
  }

  /** When every particle has at least two frames to live, the update keeps
      them all, each moved, slowed and aged in place. */
  lemma {:induction false} TickParticlesAllLive(ps: seq<Particle>)
    requires forall p :: p in ps ==> p.life >= 2
    ensures |TickParticles(ps)| == |ps|
    ensures forall i :: 0 <= i < |ps| ==> TickParticles(ps)[i] == StepParticle(ps[i])
    decreases |ps|
  {
    if ps != [] {
      assert ps[0] in ps;
      assert forall p :: p in ps[1..] ==> p in ps;
      TickParticlesAllLive(ps[1..]);
    }
  }

  /** `k` frames of one particle that is never removed. */
  function StepParticleN(p: Particle, k: nat): Particle
    decreases k
  {
    if k == 0 then p else StepParticleN(StepParticle(p), k - 1)
  }

  lemma {:induction false} StepParticleNLife(p: Particle, k: nat)
    ensures StepParticleN(p, k).life == p.life - k
    decreases k
  {
    if k > 0 {
      StepParticleNLife(StepParticle(p), k - 1);
    }
  }

  function TickParticlesN(ps: seq<Particle>, n: nat): seq<Particle>
    decreases n
  {
    if n == 0 then ps else TickParticlesN(TickParticles(ps), n - 1)
  }

  predicate LivesAtMost(ps: seq<Particle>, n: int) {
    forall p :: p in ps ==> p.life <= n
  }

  lemma {:induction false} TickParticlesAges(ps: seq<Particle>, n: int)
    requires LivesAtMost(ps, n)
    ensures LivesAtMost(TickParticles(ps), n - 1)
    decreases |ps|
  {
    if ps != [] {
      assert LivesAtMost(ps[1..], n) by {
        forall p | p in ps[1..] ensures p.life <= n { assert p in ps; }
      }
      TickParticlesAges(ps[1..], n);
    }
  }

  /** When no particle has more than `n` frames to live, `n` updates clear
      the list: every particle of a burst is gone after 30 frames. */
  lemma {:induction false} ParticlesDieOut(ps: seq<Particle>, n: nat)
    requires n >= 1 && LivesAtMost(ps, n)
    ensures TickParticlesN(ps, n) == []
    decreases n
  {
    if n == 1 {
      LastFrame(ps);
    } else {
      TickParticlesAges(ps, n);
      ParticlesDieOut(TickParticles(ps), n - 1);
    }
  }

  lemma {:induction false} LastFrame(ps: seq<Particle>)
    requires LivesAtMost(ps, 1)
    ensures TickParticles(ps) == []
    decreases |ps|
  {
    if ps != [] {
      assert ps[0] in ps;
      assert LivesAtMost(ps[1..], 1) by {
        forall p | p in ps[1..] ensures p.life <= 1 { assert p in ps; }
      }
      LastFrame(ps[1..]);
    }
  }

  /** The particles of one explosion are all gone after exactly 30 frames. */
  lemma BurstFades(x: real, y: real, velocities: seq<(real, real)>)
    ensures TickParticlesN(Burst(x, y, velocities).0, PARTICLE_LIFE) == []
  {
    var ps := Burst(x, y, velocities).0;
    assert LivesAtMost(ps, PARTICLE_LIFE) by {
      forall p | p in ps ensures p.life <= PARTICLE_LIFE {
        var i :| 0 <= i < |ps| && ps[i] == p;
      }
    }
    ParticlesDieOut(ps, PARTICLE_LIFE);
  }

  /** Particles with more than `k` frames to live all survive `k` updates,
      each where `k` frames of its own motion take it. */
  lemma {:induction false} LiveParticlesSurvive(ps: seq<Particle>, k: nat)
    requires forall p :: p in ps ==> p.life > k
    ensures |TickParticlesN(ps, k)| == |ps|
    ensures forall i :: 0 <= i < |ps| ==> TickParticlesN(ps, k)[i] == StepParticleN(ps[i], k)
    decreases k
  {
    if k > 0 {
      TickParticlesAllLive(ps);
      var qs := TickParticles(ps);
      assert forall q :: q in qs ==> q.life > k - 1 by {
        forall q | q in qs ensures q.life > k - 1 {
          var i :| 0 <= i < |qs| && qs[i] == q;
          assert ps[i] in ps;
        }
      }
      LiveParticlesSurvive(qs, k - 1);
    }
  }

  /** For the 29 frames after an explosion every one of its particles is
      still drawn, with 30 - k frames left after k updates. */
  lemma BurstSurvives(x: real, y: real, velocities: seq<(real, real)>, k: nat)
    requires k < PARTICLE_LIFE
    ensures |TickParticlesN(Burst(x, y, velocities).0, k)| == |velocities|
    ensures forall i :: 0 <= i < |velocities| ==>
      TickParticlesN(Burst(x, y, velocities).0, k)[i]
        == StepParticleN(Particle(x, y, velocities[i].0, velocities[i].1, PARTICLE_LIFE), k)
      && TickParticlesN(Burst(x, y, velocities).0, k)[i].life == PARTICLE_LIFE - k
  {
    var ps := Burst(x, y, velocities).0;
    assert forall p :: p in ps ==> p.life > k by {
      forall p | p in ps ensures p.life > k {
        var i :| 0 <= i < |ps| && ps[i] == p;
      }
    }
    LiveParticlesSurvive(ps, k);
    forall i | 0 <= i < |velocities|
      ensures TickParticlesN(ps, k)[i].life == PARTICLE_LIFE - k
    {
      StepParticleNLife(ps[i], k);
    }
  }

  // ---------------------------------------------------------------- rings

  function StepRing(e: Ring): Ring {
    e.(radius := e.radius + e.speed, life := e.life - 1)
  }

  /** Removal test after the step: out of life, or grown past the maximum. */
  predicate RingSpent(e: Ring) { e.life <= 0 || e.radius > e.maxRadius }

  /** One `updateExplosions`. */
  function TickRings(es: seq<Ring>): (r: seq<Ring>)
    ensures |r| <= |es|
    ensures forall e :: e in r ==> !RingSpent(e)
    decreases |es|
  {
    if es == [] then []
    else
      var e := StepRing(es[0]);
      if RingSpent(e) then TickRings(es[1..]) else [e] + TickRings(es[1..])
  }

  function TickRingsN(es: seq<Ring>, n: nat): seq<Ring>
    decreases n
  {
    if n == 0 then es else TickRingsN(TickRings(es), n - 1)
  }

  /** A fresh ring, k frames on. */
  function FreshRingAfter(x: real, y: real, k: nat): Ring {
    Ring(x, y, RING_RADIUS + k as real * RING_SPEED, RING_MAX_RADIUS, RING_SPEED, RING_LIFE - k)
  }

  lemma {:induction false} FreshRingGrows(x: real, y: real, k: nat)
    requires k <= 15
    ensures TickRingsN([FreshRingAfter(x, y, 0)], k) == [FreshRingAfter(x, y, k)]
    decreases k
  {
    if k > 0 {
      FreshRingGrows(x, y, k - 1);
      ShiftTickRingsN([FreshRingAfter(x, y, 0)], k - 1);
      assert StepRing(FreshRingAfter(x, y, k - 1)) == FreshRingAfter(x, y, k);
      assert TickRings([FreshRingAfter(x, y, k - 1)]) == [FreshRingAfter(x, y, k)];
    }
  }

  lemma {:induction false} ShiftTickRingsN(es: seq<Ring>, n: nat)
    ensures TickRingsN(es, n + 1) == TickRings(TickRingsN(es, n))
    decreases n
  {
    if n > 0 {
      ShiftTickRingsN(TickRings(es), n - 1);
    }
  }

  /** The ring of an explosion lives 15 frames, growing 3 per frame, and is
      removed on the 16th, when its radius 53 first exceeds 50 (its
      20-frame life never runs out). */
  lemma FreshRingLifetime(x: real, y: real)
    ensures TickRingsN([FreshRingAfter(x, y, 0)], 15) == [Ring(x, y, 50.0, RING_MAX_RADIUS, RING_SPEED, 5)]
    ensures TickRingsN([FreshRingAfter(x, y, 0)], 16) == []
  {
    FreshRingGrows(x, y, 15);
    ShiftTickRingsN([FreshRingAfter(x, y, 0)], 15);
    assert RingSpent(StepRing(FreshRingAfter(x, y, 15)));
  }
}
