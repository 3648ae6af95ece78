/**
 * A firework (js/classes/Firework.js): a charge that rises toward its blast
 * point and, on arrival, a burst of particles that are updated and culled on
 * every later tick. Math.random() draws are passed in as Sparks; Math.cos and
 * Math.sin of a particle's angle are passed in with them.
 */
module Fireworks {
  import opened Wrappers
  import opened Particles
  import opened Culling
  import opened Charging

  /** The blast configuration. isStarted and isDone are stored but never read or changed. */
  datatype Blast = Blast(colors: seq<string>, power: int, radius: real, isStarted: bool, isDone: bool)

  /** Radius used when blastRadius is absent or 0 (JavaScript's `blastRadius || 50`). */
  const DefaultRadius: real := 50.0

  /**
   * The four Math.random() draws made for one particle, in the order the loop body
   * makes them (angle, speed, color, life), and the cosine and sine of the angle.
   * The angle is kept in turns: the draw itself, standing for draw * 2 pi radians.
   */
  datatype Spark = Spark(angle: real, speed: real, color: real, life: real, cos: real, sin: real)

  /** A value Math.random() can return. */
  predicate IsDraw(r: real) { 0.0 <= r < 1.0 }

  predicate ValidSpark(sp: Spark)
  {
    IsDraw(sp.angle) && IsDraw(sp.speed) && IsDraw(sp.color) && IsDraw(sp.life)
  }

  predicate ValidSparks(sparks: seq<Spark>)
  {
    forall i :: 0 <= i < |sparks| ==> ValidSpark(sparks[i])
  }

  /** Iterations of `for (let i = 0; i < power; i++)` for an integer power. */
  function Count(power: int): (n: nat)
    ensures power > 0 ==> n == power
    ensures power <= 0 ==> n == 0
  {
    if power > 0 then power else 0
  }

  /** Math.floor(r * n): a valid index of an n-element array for every draw r. */
  function Index(r: real, n: nat): (i: int)
    ensures IsDraw(r) && n > 0 ==> 0 <= i < n
  {
    if IsDraw(r) && n > 0 then
      MulBelow(r, n as real);
      FloorWithin(r * n as real, n);
      (r * n as real).Floor
    else (r * n as real).Floor
  }

  lemma FloorWithin(x: real, n: int)
    requires 0.0 <= x < n as real
    ensures 0 <= x.Floor < n
  {
  }

  lemma MulBelow(r: real, m: real)
    requires 0.0 <= r < 1.0 && m > 0.0
    ensures 0.0 <= r * m < m
  {
  }

  /** colors[Math.floor(r * colors.length)]; an index outside the array yields undefined (None). */
  function Pick(colors: seq<string>, r: real): (c: Option<string>)
    ensures IsDraw(r) && |colors| > 0 ==> c == Some(colors[Index(r, |colors|)])
    ensures IsDraw(r) && |colors| > 0 ==> c.Some? && c.value in colors
    ensures |colors| == 0 ==> c == None
  {
    var i := Index(r, |colors|);
    if 0 <= i < |colors| then Some(colors[i]) else None
  }

  /** A particle's speed, Math.random() * radius * 0.1 + 1: within [1, 1 + radius * 0.1). */
  function ParticleSpeed(d: real, radius: real): (v: real)
    ensures IsDraw(d) && radius > 0.0 ==> 1.0 <= v < 1.0 + radius * 0.1
  {
    if IsDraw(d) && radius > 0.0 then MulBelow(d, radius); d * radius * 0.1 + 1.0
    else d * radius * 0.1 + 1.0
  }

  /** A particle's life, Math.random() * 60 + 60: within [60, 120). */
  function ParticleLife(d: real): (l: real)
    ensures IsDraw(d) ==> 60.0 <= l < 120.0
  {
    d * 60.0 + 60.0
  }

  /** The particle one loop iteration of createExplosionAt(x, y) creates from one spark. */
  function NewParticle(b: Blast, parent: Option<Surface>, x: real, y: real, sp: Spark): (p: PState)
    ensures p.x == x && p.y == y && p.size == InitialSize && p.parent == parent
    ensures IsDraw(sp.life) ==> 60.0 <= p.life < 120.0
    ensures IsDraw(sp.speed) && b.radius > 0.0 ==> 1.0 <= p.speed < 1.0 + b.radius * 0.1
    ensures IsDraw(sp.color) && |b.colors| > 0 ==> p.color.Some? && p.color.value in b.colors
    ensures IsDraw(sp.angle) ==> 0.0 <= p.angle < 1.0
  {
    var speed := ParticleSpeed(sp.speed, b.radius);
    PState(x, y, Pick(b.colors, sp.color), sp.angle, speed, sp.cos * speed, sp.sin * speed,
           ParticleLife(sp.life), InitialSize, parent)
  }

  /** The particles created by createExplosionAt(x, y), one per spark, in order. */
  function Spawn(b: Blast, parent: Option<Surface>, x: real, y: real, sparks: seq<Spark>): (r: seq<PState>)
    ensures |r| == |sparks|
    ensures forall i :: 0 <= i < |r| ==> r[i] == NewParticle(b, parent, x, y, sparks[i])
    ensures forall i :: 0 <= i < |r| ==>
              r[i].x == x && r[i].y == y && r[i].size == InitialSize && r[i].parent == parent
  {
    seq(|sparks|, i requires 0 <= i < |sparks| => NewParticle(b, parent, x, y, sparks[i]))
  }

  /** Every particle of a burst starts alive, with life in [60, 120). */
  lemma SpawnAlive(b: Blast, parent: Option<Surface>, x: real, y: real, sparks: seq<Spark>)
    requires ValidSparks(sparks)
    ensures Alive(Spawn(b, parent, x, y, sparks))
    ensures forall i :: 0 <= i < |sparks| ==> 60.0 <= Spawn(b, parent, x, y, sparks)[i].life < 120.0
  {
  }

  /** With valid draws, a positive radius and a non-empty palette, every particle of a burst
      has speed in [1, 1 + radius * 0.1) and a colour from the palette. */
  lemma SpawnRanges(b: Blast, parent: Option<Surface>, x: real, y: real, sparks: seq<Spark>)
    requires ValidSparks(sparks) && b.radius > 0.0 && |b.colors| > 0
    ensures forall i :: 0 <= i < |sparks| ==>
              1.0 <= Spawn(b, parent, x, y, sparks)[i].speed < 1.0 + b.radius * 0.1
    ensures forall i :: 0 <= i < |sparks| ==>
              Spawn(b, parent, x, y, sparks)[i].color.Some?
              && Spawn(b, parent, x, y, sparks)[i].color.value in b.colors
  {
  }

  lemma SpawnSnoc(b: Blast, parent: Option<Surface>, x: real, y: real, sparks: seq<Spark>, i: nat)
    requires i < |sparks|
    ensures Spawn(b, parent, x, y, sparks[..i + 1])
            == Spawn(b, parent, x, y, sparks[..i]) + [NewParticle(b, parent, x, y, sparks[i])]
  {
  }

  lemma AliveConcat(s: seq<PState>, t: seq<PState>)
    requires Alive(s) && Alive(t)
    ensures Alive(s + t)
  {
  }

  /** The whole state of a firework, with its particles as values. */
  datatype FireworkState = FireworkState(blast: Blast, particles: seq<PState>, charge: Charge,
                                         parent: Option<Surface>)

  /** This tick is the one on which the charge detonates. */
  predicate Detonates(s: FireworkState)
    ensures Detonates(s) <==> s.parent.Some? && !s.charge.isLaunched && ChargeTick(s.charge).isLaunched
  {
    s.parent.Some? && !s.charge.isLaunched && Arrived(Approach(s.charge))
  }

  /** One launch() call. */
  function Tick(s: FireworkState, sparks: seq<Spark>): (r: FireworkState)
    requires Count(s.blast.power) <= |sparks|
    ensures r.blast == s.blast && r.parent == s.parent
    ensures s.parent.None? ==> r == s
    ensures r.charge.isLaunched <==> s.charge.isLaunched || Detonates(s)
    ensures s.parent.Some? ==> r.charge == ChargeTick(s.charge)
    ensures s.charge.isLaunched ==> r.charge == s.charge && |r.particles| <= |s.particles|
    ensures !Detonates(s) && !s.charge.isLaunched ==> r.particles == s.particles
    ensures Detonates(s) ==> |r.particles| == |s.particles| + Count(s.blast.power)
                             && r.particles[..|s.particles|] == s.particles
    ensures ValidSparks(sparks) && Alive(s.particles) ==> Alive(r.particles)
  {
    if s.parent.None? then s
    else if s.charge.isLaunched then
      ForEachTickIsSweep(s.particles);
      SweepNeverGrows(s.particles, false);
      if Alive(s.particles) then SweepKeepsAlive(s.particles, false); s.(particles := ForEachTick(s.particles))
      else s.(particles := ForEachTick(s.particles))
    else
      var c := ChargeTick(s.charge);
      if c.isLaunched then
        var burst := Spawn(s.blast, s.parent, c.blastPoint.x, c.blastPoint.y, sparks[..Count(s.blast.power)]);
        assert (s.particles + burst)[..|s.particles|] == s.particles;
        if ValidSparks(sparks) then
          SpawnAlive(s.blast, s.parent, c.blastPoint.x, c.blastPoint.y, sparks[..Count(s.blast.power)]);
          s.(charge := c, particles := s.particles + burst)
        else s.(charge := c, particles := s.particles + burst)
      else s.(charge := c)
  }

  /** n successive launch() calls, each with the same random source. */
  function Run(s: FireworkState, sparks: seq<Spark>, n: nat): (r: FireworkState)
    requires Count(s.blast.power) <= |sparks|
    ensures r.blast == s.blast && r.parent == s.parent
    decreases n
  {
    if n == 0 then s else Run(Tick(s, sparks), sparks, n - 1)
  }

  /** How many of n successive ticks detonate the charge. */
  function Detonations(s: FireworkState, sparks: seq<Spark>, n: nat): (d: nat)
    requires Count(s.blast.power) <= |sparks|
    decreases n
  {
    if n == 0 then 0
    else (if Detonates(s) then 1 else 0) + Detonations(Tick(s, sparks), sparks, n - 1)
  }

  /** Without a parent, launch() changes nothing, however often it is called. */
  lemma {:induction false} UnboundRunIsIdle(s: FireworkState, sparks: seq<Spark>, n: nat)
    requires Count(s.blast.power) <= |sparks| && s.parent.None?
    ensures Run(s, sparks, n) == s
    decreases n
  {
    if n > 0 {
      UnboundRunIsIdle(Tick(s, sparks), sparks, n - 1);
    }
  }

  /** Once exploded, a firework stays exploded, its charge never moves again, and its
      particle collection never grows. */
  lemma {:induction false} ExplodedStaysExploded(s: FireworkState, sparks: seq<Spark>, n: nat)
    requires Count(s.blast.power) <= |sparks| && s.charge.isLaunched
    ensures Run(s, sparks, n).charge == s.charge
    ensures |Run(s, sparks, n).particles| <= |s.particles|
    ensures Detonations(s, sparks, n) == 0
    decreases n
  {
    if n > 0 {
      ExplodedStaysExploded(Tick(s, sparks), sparks, n - 1);
    }
  }

  /** The charge detonates at most once, however many ticks are run. */
  lemma {:induction false} DetonatesAtMostOnce(s: FireworkState, sparks: seq<Spark>, n: nat)
    requires Count(s.blast.power) <= |sparks|
    ensures Detonations(s, sparks, n) <= 1
    decreases n
  {
    if n > 0 {
      var t := Tick(s, sparks);
      if t.charge.isLaunched {
        ExplodedStaysExploded(t, sparks, n - 1);
      } else {
        DetonatesAtMostOnce(t, sparks, n - 1);
      }
    }
  }

  /** With a parent bound, the charge follows the charge-only transition. */
  lemma {:induction false} RunCharge(s: FireworkState, sparks: seq<Spark>, n: nat)
    requires Count(s.blast.power) <= |sparks| && s.parent.Some?
    ensures Run(s, sparks, n).charge == ChargeRun(s.charge, n)
    decreases n
  {
    if n > 0 {
      RunCharge(Tick(s, sparks), sparks, n - 1);
    }
  }

  /** A bound firework always explodes: within StepsToArrive ticks its charge has detonated. */
  lemma EventuallyExplodes(s: FireworkState, sparks: seq<Spark>)
    requires Count(s.blast.power) <= |sparks| && s.parent.Some?
    ensures Run(s, sparks, StepsToArrive(s.charge)).charge.isLaunched
  {
    RunCharge(s, sparks, StepsToArrive(s.charge));
    EventuallyLaunched(s.charge);
  }

  /** Particles held by a firework that has run from a state whose particles were all alive
      are all alive. */
  lemma {:induction false} RunKeepsAlive(s: FireworkState, sparks: seq<Spark>, n: nat)
    requires Count(s.blast.power) <= |sparks| && ValidSparks(sparks) && Alive(s.particles)
    ensures Alive(Run(s, sparks, n).particles)
    decreases n
  {
    if n > 0 {
      RunKeepsAlive(Tick(s, sparks), sparks, n - 1);
    }
  }

  class Firework {
    var blast: Blast
    /** blast.particles of the source, kept in a field of its own. */
    var particles: seq<Particle>
    var charge: Charge
    var parent: Option<Surface>

    /** Particle objects are never shared between slots, every particle held is alive, and the
        charge keeps the size and colour it was created with. */
    ghost predicate Valid()
      reads this, particles
    {
      Distinct(particles) && Alive(States(particles)) && charge.size == 4.0 && charge.color == "white"
    }

    /** The firework's state as a value. */
    function Model(): (m: FireworkState)
      reads this, particles
    {
      FireworkState(blast, States(particles), charge, parent)
    }

    /** The charge starts at the launch point, uncharged; no particles; no parent; the
        radius defaults to 50 when absent or 0. */
    constructor (colors: seq<string>, blastPower: int, blastRadius: Option<real>, launchPoint: Point,
                 chargeSpeed: Option<real>, blastPoint: Point)
      ensures Valid()
      ensures blast == Blast(colors, blastPower,
                             if blastRadius.None? || blastRadius.value == 0.0 then DefaultRadius
                             else blastRadius.value,
                             false, false)
      ensures particles == []
      ensures charge == Charge(launchPoint.x, launchPoint.y, 4.0, "white", chargeSpeed,
                               launchPoint, blastPoint, false)
      ensures parent == None
    {
      blast := Blast(colors, blastPower,
                     if blastRadius.None? || blastRadius.value == 0.0 then DefaultRadius
                     else blastRadius.value,
                     false, false);
      particles := [];
      charge := Charge(launchPoint.x, launchPoint.y, 4.0, "white", chargeSpeed,
                       launchPoint, blastPoint, false);
      parent := None;
    }

    /** Binds the firework to a rendering context; an absent one leaves the binding as it was. */
    method AppendTo(p: Option<Surface>)
      modifies this`parent
      ensures p.Some? ==> parent == p
      ensures p.None? ==> parent == old(parent)
    {
      if p.Some? {
        parent := p;
      }
    }

    /** Appends one new particle per spark, Count(power) of them, after the existing ones,
        each bound to the firework's parent; existing particles are untouched. */
    method CreateExplosionAt(x: real, y: real, sparks: seq<Spark>)
      requires Valid() && Count(blast.power) <= |sparks| && ValidSparks(sparks)
      modifies this`particles
      ensures Valid()
      ensures |particles| == old(|particles|) + Count(blast.power)
      ensures particles[..old(|particles|)] == old(particles)
      ensures States(particles)
              == old(States(particles)) + Spawn(blast, parent, x, y, sparks[..Count(blast.power)])
    {
      ghost var s0 := States(particles);
      ghost var n0 := |particles|;
      var i := 0;
      while i < blast.power
        invariant 0 <= i <= Count(blast.power)
        invariant |particles| == n0 + i
        invariant particles[..n0] == old(particles)
        invariant Distinct(particles)
        invariant States(particles) == s0 + Spawn(blast, parent, x, y, sparks[..i])
      {
        // angle, speed, color and life from this iteration's draws
        var q := NewParticle(blast, parent, x, y, sparks[i]);
        ghost var pre := particles;
        PushParticle(q);
        assert particles[..n0] == old(particles) by {
          PrefixKept(pre, particles, n0);
        }
        assert States(particles) == s0 + Spawn(blast, parent, x, y, sparks[..i + 1]) by {
          SpawnSnoc(blast, parent, x, y, sparks, i);
          var burst := Spawn(blast, parent, x, y, sparks[..i]);
          assert (s0 + burst) + [q] == s0 + (burst + [q]);
        }
        i := i + 1;
      }
      assert Alive(States(particles)) by {
        SpawnAlive(blast, parent, x, y, sparks[..Count(blast.power)]);
        AliveConcat(s0, Spawn(blast, parent, x, y, sparks[..Count(blast.power)]));
      }
    }

    static lemma PrefixKept(a: seq<Particle>, b: seq<Particle>, n: nat)
      requires n <= |a| <= |b| && b[..|a|] == a
      ensures b[..n] == a[..n]
    {
    }

    /** One loop body of createExplosionAt: construct a particle from q's fields, push it,
        and bind it to the firework's parent. */
    method PushParticle(q: PState)
      requires Distinct(particles) && q.size == InitialSize && q.parent == parent
      modifies this`particles
      ensures Distinct(particles)
      ensures |particles| == old(|particles|) + 1 && particles[..old(|particles|)] == old(particles)
      ensures fresh(particles[old(|particles|)])
      ensures States(particles) == old(States(particles)) + [q]
    {
      var p := new Particle(q.x, q.y, q.color, q.angle, q.speed, q.life, q.dx, q.dy);
      ghost var before := particles;
      ghost var sb := States(before);
      assert p !in before;
      particles := particles + [p];
      assert particles[..|before|] == before;
      p.AppendTo(parent);
      assert States(before) == sb;
      StatesAppend(before, p);
      DistinctAppend(before, p);
    }

    /** The circle the charge is painted as; without a parent the source fails on the
        missing renderer, so a parent is required. */
    method RenderCharge() returns (mark: Circle)
      requires parent.Some?
      ensures mark == Circle(charge.x, charge.y, charge.size, Some(charge.color))
      ensures Valid() ==> mark.radius == 4.0 && mark.color == Some("white")
    {
      mark := Circle(charge.x, charge.y, charge.size, Some(charge.color));
    }

    /** The exploded-phase pass: forEach over the particles, visiting each index below the
        length the array had when the pass began and still below its current length. */
    method UpdateParticles()
      requires Distinct(particles) && Alive(States(particles))
      modifies this`particles, particles
      ensures Distinct(particles) && Alive(States(particles))
      ensures States(particles) == ForEachTick(old(States(particles)))
      ensures forall i :: 0 <= i < |particles| ==> particles[i] in old(particles)
    {
      ghost var s0 := States(particles);
      var len0 := |particles|;
      var k := 0;
      while k < len0
        invariant k <= len0 && |particles| <= len0
        invariant Distinct(particles)
        invariant forall i :: 0 <= i < |particles| ==> particles[i] in old(particles)
        invariant ForEachSplice(States(particles), k, len0) == ForEachSplice(s0, 0, len0)
      {
        if k < |particles| {
          VisitParticle(k, len0);
        }
        k := k + 1;
      }
      assert States(particles) == ForEachTick(s0);
      assert Alive(s0);
    }

    /** The forEach callback at index k: update and render the particle there, and splice it
        out at that index when its life has run out. */
    method VisitParticle(k: nat, ghost len0: nat)
      requires Distinct(particles) && k < |particles| <= len0
      modifies this`particles, particles[k]
      ensures Distinct(particles)
      ensures forall i :: 0 <= i < |particles| ==> particles[i] in old(particles)
      ensures var s := old(States(particles));
              var p := Advance(s[k]);
              States(particles) == if p.life <= 0.0 then s[..k] + s[k + 1..] else s[k := p]
      ensures ForEachSplice(old(States(particles)), k, len0) == ForEachSplice(States(particles), k + 1, len0)
    {
      var p := particles[k];
      ghost var before := States(particles);
      p.Update();
      var _ := p.Render();
      assert States(particles) == before[k := Advance(before[k])];
      if p.life <= 0.0 {
        StatesRemove(particles, k);
        DistinctRemove(particles, k);
        particles := particles[..k] + particles[k + 1..];
      }
    }

    /** One animation tick: launch(). */
    method Launch(sparks: seq<Spark>)
      requires Valid() && Count(blast.power) <= |sparks| && ValidSparks(sparks)
      modifies this, particles
      ensures Valid()
      ensures Model() == Tick(old(Model()), sparks)
    {
      if parent.Some? {
        if !charge.isLaunched {
          ChargeStep(sparks);
        } else {
          UpdateParticles();
        }
      }
    }

    /** The charging branch of launch(): move the charge 5% toward the blast point, detonate
        when it is within 5 on both axes, and render the charge. */
    method ChargeStep(sparks: seq<Spark>)
      requires Valid() && Count(blast.power) <= |sparks| && ValidSparks(sparks)
      requires parent.Some? && !charge.isLaunched
      modifies this`charge, this`particles
      ensures Valid()
      ensures Model() == Tick(old(Model()), sparks)
    {
      charge := charge.(x := charge.x + (charge.blastPoint.x - charge.x) * StepFactor);
      charge := charge.(y := charge.y + (charge.blastPoint.y - charge.y) * StepFactor);
      if Abs(charge.x - charge.blastPoint.x) < Tolerance && Abs(charge.y - charge.blastPoint.y) < Tolerance {
        charge := charge.(isLaunched := true);
        CreateExplosionAt(charge.blastPoint.x, charge.blastPoint.y, sparks);
      }
      var _ := RenderCharge();
    }
  }
}
