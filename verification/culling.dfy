/**
 * The exploded-phase pass over a firework's particles (js/classes/Firework.js,
 * the forEach callback that updates, renders and splices out dead particles).
 * JavaScript's Array.prototype.forEach reads the length once, visits index k
 * only while k is still below the current length, and does not revisit
 * elements that a splice shifts down: the particle that moves into a vacated
 * slot is skipped on that pass.
 */
module Culling {
  import opened Particles

  /** Every particle still has life left. */
  predicate Alive(s: seq<PState>)
  {
    forall i :: 0 <= i < |s| ==> s[i].life > 0.0
  }

  /** The forEach loop from index k on, over an array whose length was len0 when the loop began. */
  function ForEachSplice(s: seq<PState>, k: nat, len0: nat): (r: seq<PState>)
    ensures |r| <= |s|
    ensures |s| <= k ==> r == s
    decreases len0 - k
  {
    if k >= len0 then s
    else if k < |s| then
      var p := Advance(s[k]);
      if p.life <= 0.0 then ForEachSplice(s[..k] + s[k + 1..], k + 1, len0)
      else ForEachSplice(s[k := p], k + 1, len0)
    else ForEachSplice(s, k + 1, len0)
  }

  /** One exploded-phase tick over the whole particle array. */
  function ForEachTick(s: seq<PState>): (r: seq<PState>)
    ensures |r| <= |s|
    ensures Alive(s) ==> Alive(r)
  {
    ForEachSpliceIsSweep(s, 0, |s|);
    assert s[0..] == s;
    if Alive(s) then SweepKeepsAlive(s, false); ForEachSplice(s, 0, |s|)
    else ForEachSplice(s, 0, |s|)
  }

  /**
   * Reference reading of the same pass, element by element: a particle is
   * updated and dropped if its life ran out; the particle right after a
   * dropped one is kept as it was (skip), and the walk resumes after it.
   */
  function Sweep(s: seq<PState>, skip: bool): (r: seq<PState>)
  {
    if s == [] then []
    else if skip then [s[0]] + Sweep(s[1..], false)
    else if Advance(s[0]).life <= 0.0 then Sweep(s[1..], true)
    else [Advance(s[0])] + Sweep(s[1..], false)
  }

  /** The forEach loop from index k keeps the visited prefix and sweeps the rest. */
  lemma {:induction false} ForEachSpliceIsSweep(s: seq<PState>, k: nat, len0: nat)
    requires k <= |s| <= len0
    ensures ForEachSplice(s, k, len0) == s[..k] + Sweep(s[k..], false)
    decreases len0 - k
  {
    if k == |s| {
      assert s[k..] == [];
    } else {
      var p := Advance(s[k]);
      if p.life <= 0.0 {
        var t := s[..k] + s[k + 1..];
        if k + 1 <= |t| {
          ForEachSpliceIsSweep(t, k + 1, len0);
          assert t[..k + 1] == s[..k] + [s[k + 1]];
          assert t[k + 1..] == s[k + 2..];
          assert s[k..][1..] == s[k + 1..];
          assert s[k + 1..][1..] == s[k + 2..];
        } else {
          assert t == s[..k];
          assert s[k..][1..] == [];
        }
      } else {
        var t := s[k := p];
        ForEachSpliceIsSweep(t, k + 1, len0);
        assert t[..k + 1] == s[..k] + [p];
        assert t[k + 1..] == s[k + 1..];
        assert s[k..][1..] == s[k + 1..];
      }
    }
  }

  /** A whole tick is exactly the sweep of the array. */
  lemma ForEachTickIsSweep(s: seq<PState>)
    ensures ForEachTick(s) == Sweep(s, false)
  {
    ForEachSpliceIsSweep(s, 0, |s|);
    assert s[0..] == s;
  }

  /** The pass never adds particles. */
  lemma {:induction false} SweepNeverGrows(s: seq<PState>, skip: bool)
    ensures |Sweep(s, skip)| <= |s|
  {
    if s != [] {
      SweepNeverGrows(s[1..], false);
      SweepNeverGrows(s[1..], true);
    }
  }

  /** If every particle is alive before the pass, every particle left after it is alive. */
  lemma {:induction false} SweepKeepsAlive(s: seq<PState>, skip: bool)
    requires Alive(s)
    ensures Alive(Sweep(s, skip))
  {
    if s != [] {
      assert Alive(s[1..]);
      SweepKeepsAlive(s[1..], false);
      SweepKeepsAlive(s[1..], true);
    }
  }

  /** When no particle runs out of life, the pass updates every particle and removes none. */
  lemma {:induction false} SweepWithoutDeaths(s: seq<PState>)
    requires forall i :: 0 <= i < |s| ==> Advance(s[i]).life > 0.0
    ensures Sweep(s, false) == seq(|s|, i requires 0 <= i < |s| => Advance(s[i]))
  {
    if s != [] {
      SweepWithoutDeaths(s[1..]);
    }
  }

  /** Every particle the pass keeps is either an input particle updated once or, when it
      follows a removed one, an input particle left as it was. */
  lemma {:induction false} SweepKeepsOrUpdates(s: seq<PState>, skip: bool, j: nat)
    requires j < |Sweep(s, skip)|
    ensures exists i :: 0 <= i < |s| && (Sweep(s, skip)[j] == s[i] || Sweep(s, skip)[j] == Advance(s[i]))
  {
    var r := Sweep(s, skip);
    if skip {
      if j > 0 {
        SweepKeepsOrUpdates(s[1..], false, j - 1);
        var i :| 0 <= i < |s[1..]| && (r[j] == s[1..][i] || r[j] == Advance(s[1..][i]));
        assert s[i + 1] == s[1..][i];
      } else {
        assert r[0] == s[0];
      }
    } else if Advance(s[0]).life <= 0.0 {
      SweepKeepsOrUpdates(s[1..], true, j);
      var i :| 0 <= i < |s[1..]| && (r[j] == s[1..][i] || r[j] == Advance(s[1..][i]));
      assert s[i + 1] == s[1..][i];
    } else if j > 0 {
      SweepKeepsOrUpdates(s[1..], false, j - 1);
      var i :| 0 <= i < |s[1..]| && (r[j] == s[1..][i] || r[j] == Advance(s[1..][i]));
      assert s[i + 1] == s[1..][i];
    } else {
      assert r[0] == Advance(s[0]);
    }
  }

  /** The skip after a removal: when the particle visited at index k dies, the one after it
      shifts into slot k, which the loop has already passed, so it keeps its state on this tick. */
  lemma SkipAfterRemovalAt(s: seq<PState>, k: nat, len0: nat)
    requires k + 1 < |s| <= len0 && Advance(s[k]).life <= 0.0
    ensures k < |ForEachSplice(s, k, len0)| && ForEachSplice(s, k, len0)[k] == s[k + 1]
  {
    var t := s[..k] + s[k + 1..];
    assert ForEachSplice(s, k, len0) == ForEachSplice(t, k + 1, len0);
    ForEachSpliceIsSweep(t, k + 1, len0);
    assert t[..k + 1][k] == s[k + 1];
  }

  /** The same at the start of a whole tick: when the first particle dies, the second one
      is not updated. */
  lemma SkipAfterRemoval(a: PState, b: PState, rest: seq<PState>)
    requires a.life <= 1.0
    ensures |ForEachTick([a, b] + rest)| >= 1 && ForEachTick([a, b] + rest)[0] == b
  {
    var s := [a, b] + rest;
    SkipAfterRemovalAt(s, 0, |s|);
  }
}
