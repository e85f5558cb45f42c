/**
 Convergence. From the last change of the pool's spec on, with calls that work, every run that lets every
 reconciler finish a pass often enough ends with the one wanted node set, its scale set at full count, and the
 pool's status mirroring it, and stays there. Passes of different objects interleave call by call, passes that
 began before may be stale, and writes are still rejected when they are.
 */
module Convergence {
  import opened Types
  import opened Helpers
  import opened Protocol
  import opened Coherence
  import opened Orphans
  import opened Stages

  ghost predicate Calm(s: State, a: Action) {
    match a
    case Env(_) => false
    case OfSet(n, m) => CalmMove(s, n, m)
    case OfPool(m) => !m.PoolAbort?
  }

  // ---------- What holds throughout ----------

  ghost predicate CloudCounts(s: State) {
    forall n :: Counted(s, n)
  }

  predicate SoundSet(o: NodeSet) {
    Possible(o.spec) && (o.finalizers == [] || o.finalizers == [FINALIZER])
  }

  /** No foreign finalizers, and counts that there can be. */
  ghost predicate SetsSound(s: State) {
    forall n | n in s.nodeSets :: SoundSet(s.nodeSets[n])
  }

  /** The pool's pass, if one is running, read the current spec. */
  predicate KnowsSpec(s: State) {
    !s.poolPass.PoolIdle? ==> s.poolPass.inst.spec == s.pool.spec
  }

  ghost predicate Sound(s: State) {
    SetsSound(s) && KnowsSpec(s) && Possible(s.pool.spec)
  }

  ghost predicate Base(s: State) {
    Coherent(s) && Held(s) && CloudCounts(s) && Sound(s)
  }

  /** The same, but the pool's pass may have read any older spec. */
  ghost predicate Fit(s: State) {
    && Coherent(s) && Held(s) && CloudCounts(s) && SetsSound(s) && Possible(s.pool.spec)
    && (!s.poolPass.PoolIdle? ==> Possible(s.poolPass.inst.spec))
  }

  lemma BaseIsFit(s: State)
    ensures Base(s) <==> Fit(s) && KnowsSpec(s)
  {}

  lemma CloudCountsStep(s: State, a: Action)
    requires CloudCounts(s) && Enabled(s, a) && Calm(s, a)
    ensures CloudCounts(Apply(s, a))
  {
    match a
    case OfPool(m) => PoolShape(s, m);
      CountsKept(s, Apply(s, a), "", false);
    case OfSet(n, m) =>
      MoveShape(s, n, m);
      OwnMoveCounted(s, n, m);
      CountsKept(s, Apply(s, a), n, true);
  }

  lemma CountsKept(s: State, s': State, n: string, own: bool)
    requires CloudCounts(s) && (if own then OnlyOwn(s, s', n) && Counted(s', n) else s'.cloud == s.cloud)
    ensures CloudCounts(s')
  {
    forall m ensures Counted(s', m) {
      assert Counted(s, m);
    }
  }

  lemma OwnMoveSound(s: State, n: string, m: PassMove)
    requires Coherent(s) && SetsSound(s) && Enabled(s, OfSet(n, m))
    ensures var s' := Apply(s, OfSet(n, m));
      && (n in s'.nodeSets ==> SoundSet(s'.nodeSets[n]))
      && (n in s.nodeSets && n in s'.nodeSets ==>
          s'.nodeSets[n].spec == s.nodeSets[n].spec && s'.nodeSets[n].deleting == s.nodeSets[n].deleting)
      && (n in s'.nodeSets ==> n in s.nodeSets)
  {
    assert PassOk(s, n);
    assert Removed([FINALIZER], FINALIZER) == [] by {
      assert [FINALIZER][..0] == [];
    }
    if m.Record? {
    } else if m.PutFinalizers? {
    } else {
    }
  }

  /** The target of the pool, and what the pool's pass does to it. */
  function Aim(s: State): string { Target(s.pool) }

  ghost predicate OnSpec(s: State) {
    Present(s, Aim(s)) && s.nodeSets[Aim(s)].spec == s.pool.spec
  }

  /** The pool's pass creates or respecs the target and leaves it alone otherwise. */
  ghost predicate Aims(s: State, s': State) {
    var t := Aim(s);
    && Aim(s') == t && s'.pool.spec == s.pool.spec
    && (Untouched(s, s', t)
        || (&& t in s'.nodeSets && s'.nodeSets[t].spec == s.pool.spec
            && (if t in s.nodeSets then
                  s.nodeSets[t].spec != s.pool.spec && s'.nodeSets[t].deleting == s.nodeSets[t].deleting
                else !s'.nodeSets[t].deleting)))
  }

  lemma RespecAims(s: State)
    requires Coherent(s) && Sound(s) && PoolEnabled(s, PoolRespec)
    ensures Aims(s, PoolStep(s, PoolRespec))
  {
    if Fresh(s, Aim(s), s.poolPass.found) {
      RespecWrites(s, s.poolPass.inst, s.poolPass.found);
    }
  }

  /** The write of a spec that is not stale. */
  lemma RespecWrites(s: State, inst: NodePool, found: NodeSet)
    requires Coherent(s) && s.poolPass == Respecing(inst, found) && Fresh(s, Target(inst), found)
    ensures var t, s' := Target(inst), RespecStep(s, inst, found);
      && t in s'.nodeSets && s'.nodeSets[t].spec == inst.spec && s'.pool == s.pool
      && s'.nodeSets[t].deleting == s.nodeSets[t].deleting
      && (s.nodeSets[t].spec == inst.spec ==> Untouched(s, s', t))
  {}

  lemma RespecSound(s: State)
    requires Coherent(s) && Sound(s) && PoolEnabled(s, PoolRespec)
    ensures Sound(PoolStep(s, PoolRespec))
  {}

  lemma CollectAims(s: State)
    requires Coherent(s) && Sound(s) && PoolEnabled(s, PoolCollect)
    ensures Aims(s, PoolStep(s, PoolCollect))
  {}

  lemma CollectSound(s: State)
    requires Sound(s) && PoolEnabled(s, PoolCollect)
    ensures Sound(PoolStep(s, PoolCollect))
  {}

  lemma PoolAims(s: State, m: PoolMove)
    requires Coherent(s) && Sound(s) && PoolEnabled(s, m)
    ensures Aims(s, PoolStep(s, m)) && Sound(PoolStep(s, m))
  {
    if m.PoolRespec? {
      RespecAims(s);
      RespecSound(s);
    } else if m.PoolCollect? {
      CollectAims(s);
      CollectSound(s);
    } else {
    }
  }

  lemma BaseStep(s: State, a: Action)
    requires Base(s) && Enabled(s, a) && Calm(s, a)
    ensures Base(Apply(s, a)) && Aim(Apply(s, a)) == Aim(s) && Apply(s, a).pool.spec == s.pool.spec
  {
    CoherentStep(s, a);
    HeldStep(s, a);
    CloudCountsStep(s, a);
    match a
    case OfPool(m) => PoolAims(s, m);
    case OfSet(n, m) =>
      MoveShape(s, n, m);
      OwnMoveSound(s, n, m);
  }

  // ---------- Before the pool's pass knows the spec ----------

  /** Every node set there is, or that the pool may still make. */
  ghost function Expected(s: State): set<string> {
    s.nodeSets.Keys + {Aim(s)} + if s.poolPass.PoolIdle? then {} else {Target(s.poolPass.inst)}
  }

  lemma RespecFit(s: State)
    requires Coherent(s) && SetsSound(s) && PoolEnabled(s, PoolRespec) && Possible(s.poolPass.inst.spec)
    ensures SetsSound(PoolStep(s, PoolRespec)) && PoolStep(s, PoolRespec).nodeSets.Keys <= s.nodeSets.Keys
  {}

  lemma CollectFit(s: State)
    requires SetsSound(s) && PoolEnabled(s, PoolCollect)
    ensures SetsSound(PoolStep(s, PoolCollect)) && PoolStep(s, PoolCollect).nodeSets.Keys <= s.nodeSets.Keys
  {}

  lemma PoolMoveFit(s: State, m: PoolMove)
    requires Fit(s) && PoolEnabled(s, m)
    ensures var s' := PoolStep(s, m);
      && SetsSound(s') && s'.pool.spec == s.pool.spec && s'.pool.name == s.pool.name
      && (!s'.poolPass.PoolIdle? ==> Possible(s'.poolPass.inst.spec))
      && (KnowsSpec(s) || m.PoolStart? ==> KnowsSpec(s'))
      && Expected(s') <= Expected(s)
  {
    PoolShape(s, m);
    if m.PoolRespec? {
      RespecFit(s);
      RespecKnows(s);
    } else if m.PoolCollect? {
      CollectFit(s);
      CollectKnows(s);
    }
  }

  lemma RespecKnows(s: State)
    requires PoolEnabled(s, PoolRespec)
    ensures var s' := PoolStep(s, PoolRespec);
      s'.pool == s.pool && (s'.poolPass.PoolIdle? || s'.poolPass.inst == s.poolPass.inst)
  {}

  lemma CollectKnows(s: State)
    requires PoolEnabled(s, PoolCollect)
    ensures var s' := PoolStep(s, PoolCollect);
      s'.pool == s.pool && (s'.poolPass.PoolIdle? || s'.poolPass.inst == s.poolPass.inst)
  {}

  lemma FitStep(s: State, a: Action)
    requires Fit(s) && Enabled(s, a) && Calm(s, a)
    ensures var s' := Apply(s, a);
      && Fit(s') && Aim(s') == Aim(s) && s'.pool.spec == s.pool.spec && Expected(s') <= Expected(s)
      && (KnowsSpec(s) || a == OfPool(PoolStart) ==> KnowsSpec(s'))
  {
    CoherentStep(s, a);
    HeldStep(s, a);
    CloudCountsStep(s, a);
    match a
    case OfPool(m) => PoolMoveFit(s, m);
    case OfSet(n, m) =>
      MoveShape(s, n, m);
      OwnMoveSound(s, n, m);
  }

  // ---------- The way of the target ----------

  /** What twelve rounds bring about for the target, one after the other. */
  ghost predicate Goal(k: nat, s: State) {
    var t := Aim(s);
    if k == 0 then true
    else if k == 1 then t in s.nodeSets ==> Present(s, t) || s.nodeSets[t].spec == s.pool.spec
    else if k == 2 then t in s.nodeSets ==> Present(s, t)
    else if k == 3 then Present(s, t)
    else if k < 8 then OnSpec(s) || AtStage(s, t, k - 3)
    else if k == 8 then OnSpec(s)
    else OnSpec(s) && AtStage(s, t, k - 8)
  }

  const GOALS := 12

  /** A pass on the current, deleted target is about to take its finalizer off. */
  ghost predicate Leaving(s: State, n: string) {
    && n in s.nodeSets && s.nodeSets[n].deleting
    && n in s.passes && Fresh(s, n, s.passes[n].inst)
    && (s.passes[n].DroppingScaleSet? || s.passes[n].RemovingFinalizer?)
  }

  /** The pass that leads from goal `k` to goal `k + 1` is under way, or goal `k + 1` is reached. */
  ghost predicate Working(k: nat, s: State) {
    var t := Aim(s);
    if k == 0 then Goal(1, s) || Leaving(s, t)
    else if k == 1 then Goal(2, s) || (Leaving(s, t) && s.nodeSets[t].spec == s.pool.spec)
    else if k == 2 then
      Goal(3, s) || (t !in s.nodeSets && (s.poolPass.Fetching? || s.poolPass.CreatingSet?))
    else if k < 7 then OnSpec(s) || Underway(s, t, k - 3)
    else if k == 7 then
      || OnSpec(s)
      || (AtStage(s, t, LAST)
          && (s.poolPass.Fetching? || (s.poolPass.Respecing? && Fresh(s, t, s.poolPass.found))))
    else OnSpec(s) && Underway(s, t, k - 8)
  }

  predicate ByPoolPass(k: nat) { k == 2 || k == 7 }

  lemma OwnLeaving(s: State, n: string, m: PassMove)
    requires Coherent(s) && Sound(s) && Enabled(s, OfSet(n, m)) && CalmMove(s, n, m) && Leaving(s, n)
    ensures var s' := Apply(s, OfSet(n, m)); n !in s'.nodeSets || Leaving(s', n)
  {
    assert PassOk(s, n);
    assert Removed([FINALIZER], FINALIZER) == [] by {
      assert [FINALIZER][..0] == [];
    }
  }

  lemma OwnMoveEarlyGoal(k: nat, s: State, m: PassMove)
    requires Base(s) && k <= 3 && Enabled(s, OfSet(Aim(s), m)) && CalmMove(s, Aim(s), m)
    ensures var s' := Apply(s, OfSet(Aim(s), m)); (Goal(k, s) ==> Goal(k, s')) && (Working(k, s) ==> Working(k, s'))
  {
    var t := Aim(s);
    MoveShape(s, t, m);
    OwnMoveSound(s, t, m);
    OwnMoveKeeps(s, t, m, 0);
    if Leaving(s, t) { OwnLeaving(s, t, m); }
  }

  lemma OwnMoveOnSpec(s: State, m: PassMove)
    requires Base(s) && Enabled(s, OfSet(Aim(s), m)) && CalmMove(s, Aim(s), m)
    ensures var s' := Apply(s, OfSet(Aim(s), m));
      Aim(s') == Aim(s) && (OnSpec(s) ==> OnSpec(s'))
  {
    MoveShape(s, Aim(s), m);
    OwnMoveSound(s, Aim(s), m);
    OwnMoveKeeps(s, Aim(s), m, 0);
  }

  lemma OwnMoveLateGoal(k: nat, s: State, m: PassMove)
    requires Base(s) && 3 <= k <= GOALS && Enabled(s, OfSet(Aim(s), m)) && CalmMove(s, Aim(s), m)
    ensures Goal(k, s) ==> Goal(k, Apply(s, OfSet(Aim(s), m)))
  {
    OwnMoveOnSpec(s, m);
    OwnMoveKeeps(s, Aim(s), m, if k < 8 then k - 3 else k - 8);
  }

  lemma OwnMoveRespecing(s: State, m: PassMove)
    requires Base(s) && Enabled(s, OfSet(Aim(s), m)) && CalmMove(s, Aim(s), m)
    ensures Working(7, s) ==> Working(7, Apply(s, OfSet(Aim(s), m)))
  {
    OwnMoveOnSpec(s, m);
    MoveShape(s, Aim(s), m);
    OwnMoveKeeps(s, Aim(s), m, LAST);
    if AtStage(s, Aim(s), LAST) {
      RecordedCallsNothing(s, Aim(s), m);
    }
  }

  lemma OwnMoveLateWork(k: nat, s: State, m: PassMove)
    requires Base(s) && 3 <= k < GOALS && Enabled(s, OfSet(Aim(s), m)) && CalmMove(s, Aim(s), m)
    ensures Working(k, s) ==> Working(k, Apply(s, OfSet(Aim(s), m)))
  {
    if k == 7 {
      OwnMoveRespecing(s, m);
    } else {
      OwnMoveOnSpec(s, m);
      OwnMoveKeeps(s, Aim(s), m, if k < 8 then k - 3 else k - 8);
    }
  }

  lemma OwnMoveGoal(k: nat, s: State, m: PassMove)
    requires Base(s) && k <= GOALS && Enabled(s, OfSet(Aim(s), m)) && CalmMove(s, Aim(s), m)
    ensures var s' := Apply(s, OfSet(Aim(s), m));
      (Goal(k, s) ==> Goal(k, s')) && (k < GOALS && Working(k, s) ==> Working(k, s'))
  {
    if k < 3 {
      OwnMoveEarlyGoal(k, s, m);
    } else {
      OwnMoveLateGoal(k, s, m);
      if k < GOALS { OwnMoveLateWork(k, s, m); }
    }
  }

  lemma UntouchedGoal(k: nat, s: State, s': State)
    requires k <= GOALS && Aim(s') == Aim(s) && Untouched(s, s', Aim(s)) && s'.pool.spec == s.pool.spec
    requires s'.poolPass == s.poolPass
    ensures Goal(k, s) ==> Goal(k, s')
    ensures k < GOALS && Working(k, s) ==> Working(k, s')
  {
    if 3 < k { UntouchedKeeps(s, s', Aim(s), if k < 8 then k - 3 else k - 8); }
  }

  lemma PoolMoveGoal(k: nat, s: State, m: PoolMove)
    requires Base(s) && k <= GOALS && PoolEnabled(s, m)
    ensures Goal(k, s) ==> Goal(k, PoolStep(s, m))
  {
    var s' := PoolStep(s, m);
    PoolShape(s, m);
    PoolAims(s, m);
    if 3 < k { UntouchedOrNot(s, s', if k < 8 then k - 3 else k - 8); }
  }

  lemma UntouchedOrNot(s: State, s': State, i: nat)
    ensures Untouched(s, s', Aim(s)) && AtStage(s, Aim(s), i) ==> AtStage(s', Aim(s), i)
    ensures Untouched(s, s', Aim(s)) && Underway(s, Aim(s), i) ==> Underway(s', Aim(s), i)
  {
    if Untouched(s, s', Aim(s)) { UntouchedKeeps(s, s', Aim(s), i); }
  }

  lemma PoolMoveOnTarget(s: State, m: PoolMove)
    requires Base(s) && PoolEnabled(s, m) && m != PoolAbort && (Working(2, s) || Working(7, s))
    ensures Working(2, s) ==> Working(2, PoolStep(s, m))
    ensures Working(7, s) ==> Working(7, PoolStep(s, m))
  {
    PoolShape(s, m);
    PoolAims(s, m);
    UntouchedOrNot(s, PoolStep(s, m), LAST);
  }

  lemma PoolMoveWorking(k: nat, s: State, m: PoolMove)
    requires Base(s) && k < GOALS && PoolEnabled(s, m) && m != PoolAbort && Working(k, s)
    ensures Working(k, PoolStep(s, m))
  {
    if ByPoolPass(k) {
      PoolMoveOnTarget(s, m);
    } else {
      PoolShape(s, m);
      PoolAims(s, m);
      if 3 <= k { UntouchedOrNot(s, PoolStep(s, m), if k < 8 then k - 3 else k - 8); }
    }
  }

  /** Goals and the work towards them survive every calm step, by whomever. */
  lemma GoalStep(k: nat, s: State, a: Action)
    requires Base(s) && k <= GOALS && Enabled(s, a) && Calm(s, a)
    ensures Goal(k, s) ==> Goal(k, Apply(s, a))
    ensures k < GOALS && Working(k, s) ==> Working(k, Apply(s, a))
  {
    match a
    case OfPool(m) =>
      PoolMoveGoal(k, s, m);
      if k < GOALS && Working(k, s) { PoolMoveWorking(k, s, m); }
    case OfSet(n, m) =>
      if n == Aim(s) {
        OwnMoveGoal(k, s, m);
      } else {
        MoveShape(s, n, m);
        UntouchedGoal(k, s, Apply(s, a));
      }
  }

  lemma WorkStarts(k: nat, s: State)
    requires Base(s) && k < GOALS && Goal(k, s)
    ensures !ByPoolPass(k) && Aim(s) !in s.passes ==> Working(k, StartStep(s, Aim(s)))
    ensures ByPoolPass(k) && s.poolPass.PoolIdle? ==> Working(k, PoolStep(s, PoolStart))
  {
    var t := Aim(s);
    if 3 <= k && !ByPoolPass(k) && t !in s.passes {
      var i := if k < 8 then k - 3 else k - 8;
      if AtStage(s, t, i) { UnderwayStart(s, t, i); }
      StartKeepsStage0(s, t);
    }
  }

  lemma StartKeepsStage0(s: State, t: string)
    requires Coherent(s) && t !in s.passes
    ensures StartStep(s, t).nodeSets == s.nodeSets && StartStep(s, t).pool == s.pool
  {}

  lemma WorkEnds(k: nat, s: State)
    requires k < GOALS && Working(k, s)
    requires if ByPoolPass(k) then s.poolPass.PoolIdle? else Aim(s) !in s.passes
    ensures Goal(k + 1, s)
  {
    if 3 <= k && !ByPoolPass(k) {
      var i := if k < 8 then k - 3 else k - 8;
      if Underway(s, Aim(s), i) { UnderwayEnd(s, Aim(s), i); }
    }
  }
}
