/**
 * A single particle of a firework explosion (js/classes/Particle.js).
 * Trigonometry is abstracted: a particle carries its per-tick displacement
 * (dx, dy), which stands for (cos(angle) * speed, sin(angle) * speed).
 * Drawing is modelled by the circle that render() would paint.
 */
module Particles {
  import opened Wrappers

  /** Opaque handle to the rendering context a particle or firework is bound to. */
  datatype Surface = Surface(id: nat)

  /** A filled circle painted on the drawing surface. */
  datatype Circle = Circle(x: real, y: real, radius: real, color: Option<string>)

  /** The value of every field of a particle at one moment. */
  datatype PState = PState(x: real, y: real, color: Option<string>, angle: real, speed: real,
                           dx: real, dy: real, life: real, size: real, parent: Option<Surface>)

  /** Size of a freshly created particle. */
  const InitialSize: real := 2.0
  /** Amount by which update() shrinks a particle. */
  const ShrinkStep: real := 0.05

  function Max(a: real, b: real): (m: real) { if a >= b then a else b }

  /** The effect of one update() call on a particle in state p. */
  function Advance(p: PState): (q: PState)
    ensures q.life == p.life - 1.0
    ensures q.size >= 0.0
    ensures p.size >= 0.0 ==> q.size <= p.size
    ensures p.size >= ShrinkStep ==> q.size == p.size - ShrinkStep
    ensures p.size < ShrinkStep ==> q.size == 0.0
    ensures q.x - p.x == p.dx && q.y - p.y == p.dy
    ensures q.dx == p.dx && q.dy == p.dy && q.angle == p.angle && q.speed == p.speed
    ensures q.color == p.color && q.parent == p.parent
  {
    p.(x := p.x + p.dx, y := p.y + p.dy, life := p.life - 1.0, size := Max(0.0, p.size - ShrinkStep))
  }

  /** The state after n successive update() calls. */
  function AdvanceTimes(p: PState, n: nat): (q: PState)
    ensures q.life == p.life - n as real
    ensures q.dx == p.dx && q.dy == p.dy && q.angle == p.angle && q.speed == p.speed
    ensures q.color == p.color && q.parent == p.parent
    decreases n
  {
    if n == 0 then p else AdvanceTimes(Advance(p), n - 1)
  }

  /** After n updates the size is max(0, size - 0.05 n). */
  lemma {:induction false} AdvanceTimesSize(p: PState, n: nat)
    requires p.size >= 0.0
    ensures AdvanceTimes(p, n).size == Max(0.0, p.size - ShrinkStep * n as real)
    decreases n
  {
    if n > 0 {
      var q := Advance(p);
      assert AdvanceTimes(p, n) == AdvanceTimes(q, n - 1);
      AdvanceTimesSize(q, n - 1);
      ShrinkTwice(p.size, n);
    }
  }

  /** After n updates the particle has moved n times by its constant displacement. */
  lemma {:induction false} AdvanceTimesPosition(p: PState, n: nat)
    ensures AdvanceTimes(p, n).x == p.x + n as real * p.dx
    ensures AdvanceTimes(p, n).y == p.y + n as real * p.dy
    decreases n
  {
    if n > 0 {
      var q := Advance(p);
      assert AdvanceTimes(p, n) == AdvanceTimes(q, n - 1);
      AdvanceTimesPosition(q, n - 1);
      MulSucc(n, p.dx);
      MulSucc(n, p.dy);
    }
  }

  lemma MulSucc(n: nat, d: real)
    requires n > 0
    ensures n as real * d == d + (n - 1) as real * d
  {
  }

  /** Shrinking once and then n - 1 more times, with the floor at 0, is shrinking n times. */
  lemma ShrinkTwice(size: real, n: nat)
    requires size >= 0.0 && n > 0
    ensures Max(0.0, Max(0.0, size - ShrinkStep) - ShrinkStep * (n - 1) as real)
            == Max(0.0, size - ShrinkStep * n as real)
  {
    assert ShrinkStep * n as real == ShrinkStep + ShrinkStep * (n - 1) as real;
  }

  /** A fresh particle (size 2) after n updates has size max(0, 2 - 0.05 n) and life life0 - n. */
  lemma FreshParticleAfter(p: PState, n: nat)
    requires p.size == InitialSize
    ensures AdvanceTimes(p, n).size == Max(0.0, 2.0 - 0.05 * n as real)
    ensures AdvanceTimes(p, n).life == p.life - n as real
  {
    AdvanceTimesSize(p, n);
  }

  class Particle {
    var x: real
    var y: real
    var color: Option<string>
    /** Direction of travel, in turns; update() only uses it through dx and dy. */
    var angle: real
    var speed: real
    var dx: real
    var dy: real
    var life: real
    var size: real
    var parent: Option<Surface>

    function State(): (s: PState)
      reads this
    {
      PState(x, y, color, angle, speed, dx, dy, life, size, parent)
    }

    /** Stores the arguments, starts at size 2 with no parent. */
    constructor (x: real, y: real, color: Option<string>, angle: real, speed: real, life: real,
                 dx: real, dy: real)
      ensures State() == PState(x, y, color, angle, speed, dx, dy, life, InitialSize, None)
    {
      this.x := x;
      this.y := y;
      this.color := color;
      this.angle := angle;
      this.speed := speed;
      this.life := life;
      this.dx := dx;
      this.dy := dy;
      this.size := InitialSize;
      this.parent := None;
    }

    /** Moves by the displacement, loses one unit of life and shrinks by 0.05, floored at 0. */
    method Update()
      modifies this`x, this`y, this`life, this`size
      ensures x == old(x) + dx && y == old(y) + dy
      ensures life == old(life) - 1.0
      ensures size == Max(0.0, old(size) - ShrinkStep)
      ensures State() == Advance(old(State()))
    {
      x := x + dx;
      y := y + dy;
      life := life - 1.0;
      size := Max(0.0, size - ShrinkStep);
    }

    /** Binds the particle to a rendering context; an absent one leaves the binding as it was. */
    method AppendTo(p: Option<Surface>)
      modifies this`parent
      ensures p.Some? ==> parent == p
      ensures p.None? ==> parent == old(parent)
    {
      if p.Some? {
        parent := p;
      }
    }

    /** Paints the particle when it is bound, and changes none of its fields either way. */
    method Render() returns (mark: Option<Circle>)
      ensures mark.Some? <==> parent.Some?
      ensures mark.Some? ==> mark.value == Circle(x, y, size, color)
    {
      if parent.Some? {
        mark := Some(Circle(x, y, size, color));
      } else {
        mark := None;
      }
    }
  }

  /** The states of a sequence of particles, in order. */
  function States(ps: seq<Particle>): (r: seq<PState>)
    reads ps
    ensures |r| == |ps|
    ensures forall i :: 0 <= i < |ps| ==> r[i] == ps[i].State()
  {
    seq(|ps|, i reads ps requires 0 <= i < |ps| => ps[i].State())
  }

  lemma StatesAppend(ps: seq<Particle>, p: Particle)
    ensures States(ps + [p]) == States(ps) + [p.State()]
  {
  }

  /** No particle object occurs twice. */
  predicate Distinct(ps: seq<Particle>)
  {
    forall i, j :: 0 <= i < j < |ps| ==> ps[i] != ps[j]
  }

  lemma DistinctAppend(ps: seq<Particle>, p: Particle)
    requires Distinct(ps) && p !in ps
    ensures Distinct(ps + [p])
  {
  }

  /** Removing the particle at index k removes its state at index k. */
  lemma StatesRemove(ps: seq<Particle>, k: nat)
    requires k < |ps|
    ensures States(ps[..k] + ps[k + 1..]) == States(ps)[..k] + States(ps)[k + 1..]
  {
  }

  lemma DistinctRemove(ps: seq<Particle>, k: nat)
    requires Distinct(ps) && k < |ps|
    ensures Distinct(ps[..k] + ps[k + 1..])
  {
  }
}
