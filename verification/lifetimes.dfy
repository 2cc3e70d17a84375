/** `UpdateParticleLifetimesJob`: every active particle ages by the time step; one
  * whose life runs out gets life exactly 0 and its index is appended to the dead
  * particle list through a shared counter. */
module ParticleLifetimes {
  import opened Common

  /** A life that `dt` uses up. */
  predicate RunsOut(life: real, dt: real) { life - dt <= 0.0 }

  /** One particle's life after one step: `dt` less, or exactly 0 once it runs out. */
  function Aged(life: real, dt: real): real
  {
    if RunsOut(life, dt) then 0.0 else life - dt
  }

  /** The lives after the job: active particles lose `dt`, clamped at 0 when they run
    * out; inactive ones are untouched. */
  function LivesAfter(life: seq<real>, active: seq<int>, dt: real): (r: seq<real>)
    ensures |r| == |life|
  {
    seq(|life|, j requires 0 <= j < |life| =>
      if j in active then Aged(life[j], dt) else life[j])
  }

  /** The active particles that run out of life this step, in job order. */
  function Dying(life: seq<real>, active: seq<int>, dt: real): (d: seq<int>)
    requires forall k :: 0 <= k < |active| ==> 0 <= active[k] < |life|
    ensures |d| <= |active|
  {
    if active == [] then []
    else
      var p := active[|active| - 1];
      Dying(life, active[..|active| - 1], dt) + (if RunsOut(life[p], dt) then [p] else [])
  }

  /** Each active particle's life becomes max(0, life - dt), so no active particle is
    * left with negative life; inactive particles keep theirs. */
  lemma LivesAfterAreDecremented(life: seq<real>, active: seq<int>, dt: real, j: int)
    requires 0 <= j < |life|
    ensures j in active ==> LivesAfter(life, active, dt)[j] == Max(0.0, life[j] - dt) >= 0.0
    ensures j !in active ==> LivesAfter(life, active, dt)[j] == life[j]
  {
  }

  /** The dead list gains exactly the active particles whose life ran out: an index
    * is listed if and only if it is active and its life minus `dt` is at most 0. */
  lemma {:induction false} DyingExactly(life: seq<real>, active: seq<int>, dt: real, j: int)
    requires forall k :: 0 <= k < |active| ==> 0 <= active[k] < |life|
    ensures j in Dying(life, active, dt) <==> j in active && RunsOut(life[j], dt)
  {
    if active != [] {
      var init := active[..|active| - 1];
      DyingExactly(life, init, dt, j);
      assert active == init + [active[|active| - 1]];
    }
  }

  lemma LivesAfterStep(life: seq<real>, active: seq<int>, p: int, dt: real)
    requires 0 <= p < |life| && p !in active
    ensures LivesAfter(life, active + [p], dt)
         == LivesAfter(life, active, dt)[p := Aged(life[p], dt)]
  {
  }

  lemma DyingStep(life: seq<real>, active: seq<int>, p: int, dt: real)
    requires forall k :: 0 <= k < |active| ==> 0 <= active[k] < |life|
    requires 0 <= p < |life|
    ensures Dying(life, active + [p], dt) == Dying(life, active, dt) + (if RunsOut(life[p], dt) then [p] else [])
  {
    assert (active + [p])[..|active|] == active;
  }

  /** Writing `p` just after a listed run extends the run by `p`. */
  lemma ListedAppend(before: seq<int>, after: seq<int>, from: nat, listed: seq<int>, p: int)
    requires from + |listed| < |before|
    requires forall k :: 0 <= k < |listed| ==> before[from + k] == listed[k]
    requires after == before[from + |listed| := p]
    ensures forall k :: 0 <= k < |listed| + 1 ==> after[from + k] == (listed + [p])[k]
  {
  }

  /** One work item: age particle p and, if it died, list it at the dead counter. */
  method AgeParticle(p: int, life: array<real>, deadParticles: array<int>, deadCount: int, dt: real)
    returns (newDeadCount: int)
    requires 0 <= p < life.Length && 0 <= deadCount
    requires RunsOut(life[p], dt) ==> deadCount < deadParticles.Length
    modifies life, deadParticles
    ensures var dies := RunsOut(old(life[p]), dt);
      && life[..] == old(life[..])[p := Aged(old(life[p]), dt)]
      && newDeadCount == deadCount + (if dies then 1 else 0)
      && (dies ==> deadParticles[..] == old(deadParticles[..])[deadCount := p])
      && (!dies ==> deadParticles[..] == old(deadParticles[..]))
  {
    life[p] := life[p] - dt;
    newDeadCount := deadCount;
    if life[p] <= 0.0 {
      deadParticles[newDeadCount] := p;
      newDeadCount := newDeadCount + 1;
      life[p] := 0.0;
    }
  }

  /** The job, run sequentially over the active particles (no index listed twice).
    * The dead counter starts at `deadCount` and is returned; the dead list has room
    * for every particle that dies. */
  method UpdateParticleLifetimes(active: seq<int>, life: array<real>, deadParticles: array<int>,
                                 deadCount: int, dt: real) returns (newDeadCount: int)
    requires Distinct(active)
    requires forall k :: 0 <= k < |active| ==> 0 <= active[k] < life.Length
    requires 0 <= deadCount && deadCount + |Dying(life[..], active, dt)| <= deadParticles.Length
    modifies life, deadParticles
    ensures life[..] == LivesAfter(old(life[..]), active, dt)
    ensures newDeadCount == deadCount + |Dying(old(life[..]), active, dt)|
    ensures deadParticles[deadCount..newDeadCount] == Dying(old(life[..]), active, dt)
    ensures deadParticles[..deadCount] == old(deadParticles[..deadCount])
    ensures deadParticles[newDeadCount..] == old(deadParticles[newDeadCount..])
  {
    ghost var life0 := life[..];
    ghost var dead0 := deadParticles[..];
    ghost var listed: seq<int> := [];
    newDeadCount := deadCount;
    for i := 0 to |active|
      invariant life[..] == LivesAfter(life0, active[..i], dt)
      invariant listed == Dying(life0, active[..i], dt)
      invariant newDeadCount == deadCount + |listed| <= deadCount + |Dying(life0, active, dt)|
      invariant forall k :: 0 <= k < |listed| ==> deadParticles[deadCount + k] == listed[k]
      invariant forall k :: 0 <= k < deadCount ==> deadParticles[k] == dead0[k]
      invariant forall k :: newDeadCount <= k < deadParticles.Length ==> deadParticles[k] == dead0[k]
    {
      DyingPrefix(life0, active, dt, i + 1);
      newDeadCount, listed := AgeNext(active, i, life, deadParticles, deadCount, newDeadCount, dt, life0, dead0, listed);
    }
    assert active[..|active|] == active;
    ListedSlices(deadParticles[..], dead0, deadCount, listed);
  }

  /** The dead list read as slices: the old entries below `deadCount`, then `listed`,
    * then the old entries again. */
  lemma ListedSlices(d: seq<int>, d0: seq<int>, deadCount: int, listed: seq<int>)
    requires |d| == |d0| && 0 <= deadCount && deadCount + |listed| <= |d|
    requires forall k :: 0 <= k < |listed| ==> d[deadCount + k] == listed[k]
    requires forall k :: 0 <= k < deadCount ==> d[k] == d0[k]
    requires forall k :: deadCount + |listed| <= k < |d| ==> d[k] == d0[k]
    ensures d[deadCount..deadCount + |listed|] == listed
    ensures d[..deadCount] == d0[..deadCount]
    ensures d[deadCount + |listed|..] == d0[deadCount + |listed|..]
  {
  }

  /** The loop body of `UpdateParticleLifetimes`: the `i`-th work item extends the
    * state reached after the first `i` ones to the state after the first `i + 1`. */
  method AgeNext(active: seq<int>, i: nat, life: array<real>, deadParticles: array<int>,
                 deadCount: int, count: int, dt: real,
                 ghost life0: seq<real>, ghost dead0: seq<int>, ghost listed: seq<int>)
    returns (newCount: int, ghost newListed: seq<int>)
    requires Distinct(active) && i < |active| && |life0| == life.Length && |dead0| == deadParticles.Length
    requires forall k :: 0 <= k < |active| ==> 0 <= active[k] < life.Length
    requires 0 <= deadCount && deadCount + |Dying(life0, active[..i + 1], dt)| <= deadParticles.Length
    requires life[..] == LivesAfter(life0, active[..i], dt)
    requires listed == Dying(life0, active[..i], dt)
    requires count == deadCount + |listed| <= deadParticles.Length
    requires forall k :: 0 <= k < |listed| ==> deadParticles[deadCount + k] == listed[k]
    requires forall k :: 0 <= k < deadCount ==> deadParticles[k] == dead0[k]
    requires forall k :: count <= k < deadParticles.Length ==> deadParticles[k] == dead0[k]
    modifies life, deadParticles
    ensures life[..] == LivesAfter(life0, active[..i + 1], dt)
    ensures newListed == Dying(life0, active[..i + 1], dt)
    ensures newCount == deadCount + |newListed|
    ensures forall k :: 0 <= k < |newListed| ==> deadParticles[deadCount + k] == newListed[k]
    ensures forall k :: 0 <= k < deadCount ==> deadParticles[k] == dead0[k]
    ensures forall k :: newCount <= k < deadParticles.Length ==> deadParticles[k] == dead0[k]
  {
    var p := active[i];
    assert active[..i + 1] == active[..i] + [p];
    assert p !in active[..i];
    assert life[p] == life0[p];
    LivesAfterStep(life0, active[..i], p, dt);
    DyingStep(life0, active[..i], p, dt);
    ghost var lifeBefore := life[..];
    ghost var deadBefore := deadParticles[..];
    newCount := AgeParticle(p, life, deadParticles, count, dt);
    assert life[..] == lifeBefore[p := Aged(life0[p], dt)];
    if RunsOut(life0[p], dt) {
      ListedAppend(deadBefore, deadParticles[..], deadCount, listed, p);
      newListed := listed + [p];
    } else {
      newListed := listed;
    }
  }

  /** The dead list of a prefix of the active list is no longer than the whole one. */
  lemma {:induction false} DyingPrefix(life: seq<real>, active: seq<int>, dt: real, n: nat)
    requires forall k :: 0 <= k < |active| ==> 0 <= active[k] < |life|
    requires n <= |active|
    ensures |Dying(life, active[..n], dt)| <= |Dying(life, active, dt)|
    decreases |active| - n
  {
    if n < |active| {
      DyingPrefix(life, active, dt, n + 1);
      assert active[..n + 1][..n] == active[..n];
    } else {
      assert active[..n] == active;
    }
  }
}
