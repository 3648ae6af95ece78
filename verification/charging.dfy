/**
 * The charge of a firework (js/classes/Firework.js): it moves 5% of the
 * remaining way toward the blast point on every charging tick and is marked
 * launched once it is within 5 units of it on both axes.
 */
module Charging {
  import opened Wrappers
  import Particles

  datatype Point = Point(x: real, y: real)

  /** The charge record; speed is stored (undefined when not given) but never read. */
  datatype Charge = Charge(x: real, y: real, size: real, color: string, speed: Option<real>,
                           launchPoint: Point, blastPoint: Point, isLaunched: bool)

  /** Fraction of the remaining offset covered per tick (hard-coded in the source). */
  const StepFactor: real := 0.05
  /** Per-axis distance below which the charge detonates. */
  const Tolerance: real := 5.0

  function Abs(a: real): (r: real) { if a < 0.0 then -a else a }

  /** Distance from the charge to its blast point, measured as the larger of the two axis offsets. */
  function Offset(c: Charge): (d: real)
    ensures d >= 0.0
    ensures d == 0.0 <==> c.x == c.blastPoint.x && c.y == c.blastPoint.y
  {
    Particles.Max(Abs(c.x - c.blastPoint.x), Abs(c.y - c.blastPoint.y))
  }

  /** The move of one charging tick. */
  function Approach(c: Charge): (r: Charge)
    ensures r.x - r.blastPoint.x == 0.95 * (c.x - c.blastPoint.x)
    ensures r.y - r.blastPoint.y == 0.95 * (c.y - c.blastPoint.y)
    ensures r == c.(x := r.x, y := r.y)
  {
    c.(x := c.x + (c.blastPoint.x - c.x) * StepFactor, y := c.y + (c.blastPoint.y - c.y) * StepFactor)
  }

  /** Both axis offsets are below the tolerance. */
  predicate Arrived(c: Charge)
    ensures Arrived(c) <==> Offset(c) < Tolerance
  {
    Abs(c.x - c.blastPoint.x) < Tolerance && Abs(c.y - c.blastPoint.y) < Tolerance
  }

  /** Each move shrinks the distance to the blast point by the factor 0.95, so it strictly
      decreases unless the charge is already there, in which case it stays put. */
  lemma ApproachGetsCloser(c: Charge)
    ensures Offset(Approach(c)) == 0.95 * Offset(c)
    ensures Offset(c) > 0.0 ==> Offset(Approach(c)) < Offset(c)
    ensures Offset(c) == 0.0 ==> Approach(c) == c
  {
  }

  /** What a tick with a bound parent does to the charge: move and test once charging,
      nothing once launched. */
  function ChargeTick(c: Charge): (r: Charge)
    ensures c.isLaunched ==> r == c
    ensures !c.isLaunched ==> r == Approach(c).(isLaunched := Arrived(Approach(c)))
  {
    if c.isLaunched then c
    else
      var m := Approach(c);
      if Arrived(m) then m.(isLaunched := true) else m
  }

  /** n ticks with a bound parent. */
  function ChargeRun(c: Charge, n: nat): (r: Charge)
    decreases n
  {
    if n == 0 then c else ChargeRun(ChargeTick(c), n - 1)
  }

  /** n moves, ignoring the detonation test. */
  function Moves(c: Charge, n: nat): (r: Charge)
    decreases n
  {
    if n == 0 then c else Moves(Approach(c), n - 1)
  }

  function Pow(b: real, n: nat): (r: real)
    decreases n
  {
    if n == 0 then 1.0 else b * Pow(b, n - 1)
  }

  /** A launched charge never moves and is never reset. */
  lemma {:induction false} LaunchedChargeStays(c: Charge, n: nat)
    requires c.isLaunched
    ensures ChargeRun(c, n) == c
    decreases n
  {
    if n > 0 {
      LaunchedChargeStays(c, n - 1);
    }
  }

  /** After n moves the offset to the blast point is 0.95^n times the initial offset. */
  lemma {:induction false} MovesOffset(c: Charge, n: nat)
    ensures Moves(c, n).blastPoint == c.blastPoint && Moves(c, n).isLaunched == c.isLaunched
    ensures Moves(c, n).x - c.blastPoint.x == Pow(0.95, n) * (c.x - c.blastPoint.x)
    ensures Moves(c, n).y - c.blastPoint.y == Pow(0.95, n) * (c.y - c.blastPoint.y)
    decreases n
  {
    if n > 0 {
      var m := Approach(c);
      MovesOffset(m, n - 1);
      var p := Pow(0.95, n - 1);
      assert p * (0.95 * (c.x - c.blastPoint.x)) == (0.95 * p) * (c.x - c.blastPoint.x);
      assert p * (0.95 * (c.y - c.blastPoint.y)) == (0.95 * p) * (c.y - c.blastPoint.y);
    }
  }

  /** As long as a charge has not detonated, its ticks are plain moves, so the 0.95^n
      closed form of MovesOffset applies to them. */
  lemma {:induction false} ChargeRunIsMoves(c: Charge, n: nat)
    ensures !ChargeRun(c, n).isLaunched ==> ChargeRun(c, n) == Moves(c, n)
    decreases n
  {
    if n > 0 {
      if c.isLaunched {
        LaunchedChargeStays(c, n);
      } else if Arrived(Approach(c)) {
        LaunchedChargeStays(ChargeTick(c), n - 1);
      } else {
        ChargeRunIsMoves(Approach(c), n - 1);
      }
    }
  }

  /** While the charge has not detonated, every tick brings it at least 0.25 closer
      (5% of a distance of at least 5). */
  lemma {:induction false} ChargingProgress(c: Charge, n: nat)
    requires !c.isLaunched
    ensures ChargeRun(c, n).isLaunched || Offset(ChargeRun(c, n)) <= Offset(c) - 0.25 * n as real
    decreases n
  {
    if n > 0 {
      var m := Approach(c);
      ApproachGetsCloser(c);
      if Arrived(m) {
        LaunchedChargeStays(m.(isLaunched := true), n - 1);
      } else {
        assert ChargeTick(c) == m;
        ChargingProgress(m, n - 1);
      }
    }
  }

  /** Number of ticks after which a charge has surely detonated: more than 4 times its distance. */
  function StepsToArrive(c: Charge): (n: nat)
    ensures n as real > 4.0 * Offset(c)
  {
    (4.0 * Offset(c)).Floor as nat + 1
  }

  /** Every charge, whatever its start and target, detonates within StepsToArrive ticks
      of a bound firework. */
  lemma EventuallyLaunched(c: Charge)
    ensures ChargeRun(c, StepsToArrive(c)).isLaunched
  {
    var n := StepsToArrive(c);
    if c.isLaunched {
      LaunchedChargeStays(c, n);
    } else {
      ChargingProgress(c, n);
    }
  }
}
