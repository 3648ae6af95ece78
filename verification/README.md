# Fireworks: particles and firework bookkeeping

This project models the simulation state of the canvas fireworks demo in Dafny.
It covers the two classes under `js/classes/`:

- `Particle` is a mutable record. Its fields are position, colour, angle, speed, life, size and a
  parent binding. `update()` moves it, ages it and shrinks it. `appendTo()` binds it to a rendering
  context. `render()` paints it and changes nothing.
- `Firework` is a two-phase state machine.
  - While charging, each `launch()` moves the charge 5% of the way toward its blast point.
  - When both axis offsets are below 5, it marks the charge launched and calls `createExplosionAt`
    once. That call pushes one particle per unit of `blast.power`.
  - From then on, each `launch()` walks the particle array with `forEach`. Every visited particle
    is updated and rendered, and a dead one is removed with `splice(index, 1)` during the walk.

The model is in five modules:

- `Wrappers` holds `Option`. `None` stands for JavaScript `undefined` or `null`.
- `Particles` holds the `Particle` class, its value snapshot `PState`, and `Advance`, the value
  meaning of `update()`.
- `Culling` holds the value meaning of the `forEach`/`splice` pass. `ForEachSplice` follows
  JavaScript's iteration rules: the length is read once, an index at or past the current length is
  skipped, and shifted elements are not revisited. The lemmas prove it equal to a simpler
  element-by-element reading, `Sweep`. In `Sweep`, the particle right after a removed one is kept
  unchanged on that tick.
- `Charging` holds the charge's approach and its convergence.
- `Fireworks` holds the blast configuration, how particles are generated, the value-level tick
  `Tick`, and the `Firework` class.

The imperative methods are proved against the value level. `Firework.Launch` ensures
`Model() == Tick(old(Model()), sparks)`. `Firework.UpdateParticles` is the `forEach` loop as a
`while` loop over `k < len0`. It ensures that the new particle states are
`ForEachTick(old states)`.

Inputs the model takes from outside:

- `Math.random()` draws are passed in as `Spark` values. Each spark holds four draws in the order
  the loop body makes them (angle, speed, colour, life).
- `Math.cos` and `Math.sin` of the angle are passed in with each spark.
- A particle stores its per-tick displacement `dx, dy`, which stands for
  `cos(angle) * speed, sin(angle) * speed`.
- The angle is stored in turns (the raw draw) instead of radians.
- A rendering context is an opaque `Surface` handle. Drawing is modelled as the `Circle` that
  would be painted.

Notes on the code:

- The colour palette may be empty. `colors[Math.floor(r * 0)]` is then `colors[0]` of an empty
  array, which is `undefined`, so the model gives the particle no colour (`None`).
- Life is the real number `Math.random() * 60 + 60`, not an integer.
- `chargeSpeed` is stored but never read. The step factor 0.05 is hard-coded at
  js/classes/Firework.js:111-112, and the model uses that constant.
- Dead particles are spliced out during the `forEach`. So the particle after a removed one shifts
  into a slot the loop has already passed, and it is not updated on that tick
  (`Culling.SkipAfterRemovalAt`).

## Model

| member | source | states |
|---|---|---|
| Particles.Advance | js/classes/Particle.js:31-36 | One update: life falls by exactly 1. Size becomes size − 0.05, or 0 when that would be negative, so it is never negative, and it never grows from a non-negative size. The position moves by the displacement. Colour, angle, speed, displacement and parent are unchanged. |
| Particles.AdvanceTimes | js/classes/Particle.js:31-36 | n successive update() calls: life falls by exactly n, and colour, angle, speed, displacement and parent never change. |
| Particles.AdvanceTimesSize | js/classes/Particle.js:35 | After n updates from a non-negative size, size is max(0, size − 0.05·n). |
| Particles.AdvanceTimesPosition | js/classes/Particle.js:32-33 | After n updates, x and y have moved by n times the same displacement. |
| Particles.FreshParticleAfter | js/classes/Particle.js:14-35 | A particle created with size 2 has, after n updates, size max(0, 2 − 0.05·n) and life life0 − n. |
| Particles.Particle.constructor | js/classes/Particle.js:14-24 | Stores x, y, colour, angle, speed and life as given. Size is 2 and there is no parent. |
| Particles.Particle.Update | js/classes/Particle.js:31-36 | Changes only x, y, life and size. The new state is `Advance` of the old state. |
| Particles.Particle.AppendTo | js/classes/Particle.js:44-50 | A present context becomes the parent. An absent one leaves the parent as it was. |
| Particles.Particle.Render | js/classes/Particle.js:57-66 | Changes no field. It paints the circle (x, y, size, colour) exactly when a parent is bound. |
| Particles.StatesAppend | js/classes/Firework.js:80 | Pushing a particle appends its state to the states of the array. |
| Particles.StatesRemove | js/classes/Firework.js:135 | `splice(k, 1)` removes exactly the state at index k. |
| Charging.Offset | js/classes/Firework.js:115-118 | The distance to the blast point is non-negative. It is 0 exactly when the charge is at the blast point. |
| Charging.Approach | js/classes/Firework.js:111-112 | One move maps each axis offset to 0.95 times itself. No other charge field changes. |
| Charging.Arrived | js/classes/Firework.js:115-118 | The detonation test (both axis offsets below 5) holds exactly when the distance to the blast point is below 5. |
| Charging.ApproachGetsCloser | js/classes/Firework.js:111-112 | Each move scales the distance by 0.95. It strictly decreases unless it is already 0, and then the charge stays put. |
| Charging.ChargeTick | js/classes/Firework.js:109-124 | A launched charge is unchanged. Otherwise the charge moves once, and it is launched exactly when both axis offsets are then below 5. |
| Charging.LaunchedChargeStays | js/classes/Firework.js:109-124 | A launched charge never moves again and is never reset, for any number of ticks. |
| Charging.ChargeRunIsMoves | js/classes/Firework.js:109-124 | As long as the charge has not detonated, n ticks are exactly n plain moves. |
| Charging.MovesOffset | js/classes/Firework.js:111-112 | After n moves, each axis offset is 0.95^n times the initial one. With ChargeRunIsMoves this is the offset after n ticks that have not detonated. |
| Charging.ChargingProgress | js/classes/Firework.js:109-124 | While it has not detonated, each tick brings the charge at least 0.25 closer to the blast point. |
| Charging.StepsToArrive | js/classes/Firework.js:115-118 | The tick bound is more than 4 times the initial distance. |
| Charging.EventuallyLaunched | js/classes/Firework.js:109-124 | Every charge is launched within StepsToArrive ticks. |
| Culling.ForEachSplice | js/classes/Firework.js:130-137 | The forEach/splice loop from index k, over an array whose length was len0 when the loop began. The array never grows, and once the index is at or past the current length nothing more changes. |
| Culling.ForEachTick | js/classes/Firework.js:130-137 | The whole exploded-phase pass, from index 0 with the starting length. It never adds particles, and if every particle has life > 0 before it, every particle left has life > 0. |
| Culling.ForEachSpliceIsSweep | js/classes/Firework.js:130-137 | The forEach/splice loop from index k keeps the visited prefix and sweeps the rest. |
| Culling.ForEachTickIsSweep | js/classes/Firework.js:130-137 | A whole exploded-phase pass equals the reference sweep. |
| Culling.SweepNeverGrows | js/classes/Firework.js:130-137 | The reference sweep never adds particles. |
| Culling.SweepKeepsAlive | js/classes/Firework.js:130-137 | If every particle has life > 0 before the sweep, every particle left after it has life > 0. |
| Culling.SweepWithoutDeaths | js/classes/Firework.js:130-137 | When no particle dies on this tick, every particle is updated once and none is removed. |
| Culling.SweepKeepsOrUpdates | js/classes/Firework.js:130-137 | Every particle left after the pass is some input particle, either updated once or unchanged. |
| Culling.SkipAfterRemovalAt | js/classes/Firework.js:130-137 | When the particle visited at any index k dies, the next particle shifts into slot k and keeps its state on this tick: slot k of the result holds it unchanged. |
| Culling.SkipAfterRemoval | js/classes/Firework.js:130-137 | The same at index 0 of a whole tick: when the first particle dies, the second comes out first and unchanged. |
| Fireworks.Count | js/classes/Firework.js:64-66 | The loop runs `power` times for a positive power and not at all otherwise. |
| Fireworks.Index | js/classes/Firework.js:70 | `floor(r·n)` is an in-bounds index for every draw r in [0, 1) when n > 0. |
| Fireworks.Pick | js/classes/Firework.js:69-70 | For a draw in [0, 1) and a non-empty palette, the colour is the palette entry at `floor(r·n)`, so it comes from the palette. With an empty palette it is undefined. |
| Fireworks.ParticleSpeed | js/classes/Firework.js:68 | The speed is in [1, 1 + radius·0.1) for a draw in [0, 1) and a positive radius. |
| Fireworks.ParticleLife | js/classes/Firework.js:78 | The life is in [60, 120) for a draw in [0, 1). |
| Fireworks.NewParticle | js/classes/Firework.js:66-83 | Each new particle starts at (x, y) with size 2 and the firework's parent. If the life draw is in [0, 1), life is in [60, 120). If the speed draw is in [0, 1) and the radius is positive, speed is in [1, 1 + radius·0.1). If the colour draw is in [0, 1) and the palette is non-empty, the colour is from the palette. If the angle draw is in [0, 1), the angle is within one turn. |
| Fireworks.Spawn | js/classes/Firework.js:66-84 | The burst has one particle per spark, in spark order: slot i is the particle that one loop iteration makes from spark i. Each starts at (x, y) with size 2 and the firework's parent. |
| Fireworks.SpawnRanges | js/classes/Firework.js:66-79 | With every draw in [0, 1), a positive radius and a non-empty palette, every particle of a burst has speed in [1, 1 + radius·0.1) and a colour from the palette. |
| Fireworks.SpawnAlive | js/classes/Firework.js:63-85 | With every draw in [0, 1), every particle of a burst starts alive, with life in [60, 120). |
| Fireworks.Detonates | js/classes/Firework.js:107-118 | A tick detonates exactly when a parent is bound, the charge is not yet launched, and the charge-only tick launches it. |
| Fireworks.Tick | js/classes/Firework.js:106-142 | One launch() call. Blast and parent are unchanged, and with no parent nothing changes at all. Once launched, the charge is unchanged and the particles do not grow. isLaunched becomes true exactly on the tick where the moved charge is within 5 on both axes. Without detonation the particles are unchanged while charging. On detonation exactly Count(power) particles are appended after the old ones. When every draw is in [0, 1), alive particles stay alive. |
| Fireworks.UnboundRunIsIdle | js/classes/Firework.js:106-142 | Without a parent, any number of launch() calls changes nothing. |
| Fireworks.ExplodedStaysExploded | js/classes/Firework.js:109-137 | After detonation, no later tick moves the charge, grows the particles or detonates again. |
| Fireworks.DetonatesAtMostOnce | js/classes/Firework.js:109-124 | Over any number of ticks the charge detonates, and createExplosionAt is called, at most once. |
| Fireworks.RunCharge | js/classes/Firework.js:107-124 | With a parent bound, n ticks move the charge exactly as n charge-only ticks do. |
| Fireworks.EventuallyExplodes | js/classes/Firework.js:107-124 | A bound firework has detonated within StepsToArrive ticks. |
| Fireworks.RunKeepsAlive | js/classes/Firework.js:109-137 | With every draw in [0, 1), starting from alive particles, every particle the firework holds after any number of ticks is alive. |
| Fireworks.Firework.constructor | js/classes/Firework.js:14-40 | The charge is at the launch point with size 4, colour white and isLaunched false. There are no particles and no parent. The radius is 50 when blastRadius is absent or 0, else the value given. |
| Fireworks.Firework.AppendTo | js/classes/Firework.js:48-54 | A present context becomes the parent. An absent one leaves the parent as it was. |
| Fireworks.Firework.CreateExplosionAt | js/classes/Firework.js:63-85 | Exactly Count(power) particles are appended. The existing particle objects and their states are untouched. The new states are the spawned particles in spark order, so SpawnAlive and SpawnRanges give their life, speed and colour ranges. Distinct, alive particles stay so. |
| Fireworks.Firework.PushParticle | js/classes/Firework.js:72-83 | Adds one fresh particle object at the end with the given state, bound to the firework's parent. Earlier objects are untouched. |
| Fireworks.Firework.RenderCharge | js/classes/Firework.js:92-99 | Changes nothing. It paints the charge's circle at its position and size, in its colour. Under the class invariant, which the constructor establishes and every tick keeps, that is size 4 and white. |
| Fireworks.Firework.VisitParticle | js/classes/Firework.js:130-136 | The forEach callback at index k updates only the particle at k. It removes that particle at k exactly when its life has run out. The result is one step of ForEachSplice. |
| Fireworks.Firework.UpdateParticles | js/classes/Firework.js:130-137 | The new particle states are the forEach/splice pass over the old ones. Every particle left was there before. The particles stay distinct and alive. |
| Fireworks.Firework.ChargeStep | js/classes/Firework.js:109-127 | The charging branch of launch(): the object's new value is `Tick` of its old value, and the class invariant is kept. |
| Fireworks.Firework.Launch | js/classes/Firework.js:106-142 | One launch() call on the object equals `Tick` on its value. The particles stay distinct and alive. |

## Left out

- Drawing: the canvas calls of `render()` and `renderCharge()` are modelled as the circle that would
  be painted. `console.error` and `console.warn` are left out because they change no state.
- `Math.random`, `Math.cos`, `Math.sin` and `Math.floor` are not modelled as calls. Draws and
  displacements are inputs, and draws are required to lie in [0, 1).
- IEEE floating point: all arithmetic is over exact reals, so the size, offset and convergence
  formulas hold in the reals, not bit for bit in doubles.
- The angle is kept in turns instead of radians, because pi has no exact real value.
- A non-integer `blastPower` is not modelled: `Count` takes an integer power.
- js/code.js is not part of this model (page setup and the animation-frame loop).
- The model does not bound the number of ticks until the particle collection is empty. A particle
  that follows a removed one is not updated on that tick, so skips can postpone its death.
- Fireworks.Tick: requires at least Count(power) sparks. A supply of random draws is always
  available in the source, so this only bounds the input sequence.
- Fireworks.Firework.RenderCharge: requires a bound parent. Without one the source throws on
  `this.parent.renderer`, and `launch()` only calls it with a parent bound.
