/** What follows once the target is settled: older node sets are marked, vanish, and the pool's status follows. */
module Cleanup {
  import opened Protocol
  import opened Coherence
  import opened Stages
  import opened Convergence

  /** The target is as the pool wants it, and its status says so. */
  ghost predicate Steady(s: State) {
    OnSpec(s) && Recorded(s, Aim(s))
  }

  ghost function Others(s: State): set<string> {
    s.nodeSets.Keys - {Aim(s)}
  }

  ghost predicate SameTarget(s: State, s': State) {
    var t := Aim(s);
    && Aim(s') == t && s'.pool.spec == s.pool.spec && t in s.nodeSets && t in s'.nodeSets
    && s'.nodeSets[t] == s.nodeSets[t]
  }

  lemma SteadyStep(s: State, a: Action)
    requires Base(s) && Steady(s) && Enabled(s, a) && Calm(s, a)
    ensures Steady(Apply(s, a)) && SameTarget(s, Apply(s, a))
  {
    GoalStep(GOALS, s, a);
    BaseStep(s, a);
    match a
    case OfPool(m) => PoolAims(s, m);
    case OfSet(n, m) =>
      MoveShape(s, n, m);
      if n == Aim(s) { RecordedCallsNothing(s, n, m); }
  }

  lemma PoolMakesNoOthers(s: State, m: PoolMove)
    requires Base(s) && PoolEnabled(s, m)
    ensures forall n | n in PoolStep(s, m).nodeSets && n != Aim(s) ::
      n in s.nodeSets && (s.nodeSets[n].deleting ==> PoolStep(s, m).nodeSets[n] == s.nodeSets[n])
  {
    if m.PoolRespec? {
    } else if m.PoolCollect? {
    } else {
    }
  }

  /** No step adds a node set besides the target, or takes a deletion mark off. */
  lemma OthersShrink(s: State, a: Action)
    requires Base(s) && Enabled(s, a) && Calm(s, a)
    ensures Others(Apply(s, a)) <= Others(s)
    ensures forall n | n in Others(Apply(s, a)) :: s.nodeSets[n].deleting ==> Apply(s, a).nodeSets[n].deleting
  {
    BaseStep(s, a);
    match a
    case OfPool(m) => PoolMakesNoOthers(s, m);
    case OfSet(n, m) =>
      MoveShape(s, n, m);
      OwnMoveSound(s, n, m);
  }

  // ---------- Marking ----------

  ghost predicate Doomed(s: State) {
    Steady(s) && forall n | n in Others(s) :: s.nodeSets[n].deleting
  }

  /** The pool's pass will mark every older node set, unless one that it listed vanishes under its hands. */
  predicate Sweeps(s: State) {
    match s.poolPass
    case Fetching(_) => true
    case ListingSets(_, _) => true
    case Collecting(_, _, left) =>
      && (forall n | n in left :: n in s.nodeSets)
      && (forall n | n in s.nodeSets && n != Aim(s) && !s.nodeSets[n].deleting :: n in left)
    case _ => false
  }

  /** A pass of the pool ends with every older set marked, or with fewer older sets than `before`. */
  ghost predicate Swept(s: State, before: set<string>) {
    Steady(s) && Others(s) <= before && (Others(s) != before || Doomed(s))
  }

  ghost predicate Sweeping(s: State, before: set<string>) {
    Swept(s, before) || (Steady(s) && Others(s) <= before && Sweeps(s))
  }

  lemma CollectSweeps(s: State, before: set<string>)
    requires Base(s) && Steady(s) && Others(s) == before && Sweeps(s) && PoolEnabled(s, PoolCollect)
    requires Steady(PoolStep(s, PoolCollect)) && Aim(PoolStep(s, PoolCollect)) == Aim(s)
    ensures var s' := PoolStep(s, PoolCollect); Others(s') == before ==> Doomed(s') || Sweeps(s')
  {
    var left := s.poolPass.left;
    if left == [] {
      assert PoolStep(s, PoolCollect).nodeSets == s.nodeSets;
    } else if left[0] == Aim(s) || left[0] !in s.nodeSets {
      assert left == [left[0]] + left[1..];
    } else {
      assert Target(s.poolPass.inst) == Aim(s);
      CollectOneSweeps(s, before);
    }
  }

  lemma CollectOneSweeps(s: State, before: set<string>)
    requires Sweeps(s) && Others(s) == before && PoolEnabled(s, PoolCollect)
    requires Aim(PoolStep(s, PoolCollect)) == Aim(s)
    requires s.poolPass.left != [] && s.poolPass.left[0] != Aim(s) && s.poolPass.left[0] in s.nodeSets
    requires Target(s.poolPass.inst) == Aim(s)
    ensures var s' := PoolStep(s, PoolCollect); Others(s') == before ==> Sweeps(s')
  {
    var left, s' := s.poolPass.left, PoolStep(s, PoolCollect);
    CollectMarks(s, left[0]);
    assert left == [left[0]] + left[1..];
    assert s'.nodeSets == Delete(s, left[0]).nodeSets && s'.poolPass.left == left[1..];
    assert left[0] in Others(s);
  }

  lemma CollectMarks(s: State, n: string)
    requires n in s.nodeSets && n != Aim(s)
    ensures var s' := Delete(s, n);
      && (n !in s'.nodeSets || s'.nodeSets[n].deleting)
      && (forall m | m != n :: m in s'.nodeSets <==> m in s.nodeSets)
      && (forall m | m != n && m in s.nodeSets :: s'.nodeSets[m] == s.nodeSets[m])
      && (n !in s'.nodeSets ==> n in Others(s) && s.nodeSets[n].finalizers == [])
  {}

  lemma PoolSweeps(s: State, m: PoolMove, before: set<string>)
    requires Base(s) && Steady(s) && Others(s) == before && Sweeps(s) && PoolEnabled(s, m) && m != PoolAbort
    requires Steady(PoolStep(s, m)) && Aim(PoolStep(s, m)) == Aim(s)
    ensures var s' := PoolStep(s, m); Others(s') == before ==> Doomed(s') || Sweeps(s')
  {
    if m.PoolCollect? {
      CollectSweeps(s, before);
    } else if m.PoolFetch? {
    } else if m.PoolList? {
    }
  }

  lemma SweptStep(s: State, a: Action, before: set<string>)
    requires Base(s) && Enabled(s, a) && Calm(s, a)
    ensures Swept(s, before) ==> Swept(Apply(s, a), before)
    ensures Doomed(s) ==> Doomed(Apply(s, a))
  {
    OthersShrink(s, a);
    if Steady(s) {
      SteadyStep(s, a);
    }
  }

  lemma SweepsStep(s: State, a: Action, before: set<string>)
    requires Base(s) && Steady(s) && Enabled(s, a) && Calm(s, a)
    requires Others(s) == before && Sweeps(s) && Others(Apply(s, a)) == before
    ensures Doomed(Apply(s, a)) || Sweeps(Apply(s, a))
  {
    SteadyStep(s, a);
    match a
    case OfPool(m) => PoolSweeps(s, m, before);
    case OfSet(n, m) =>
      MoveShape(s, n, m);
      OwnMoveSound(s, n, m);
      assert n in Others(s) <==> n in Others(Apply(s, a));
      SweepsKept(s, Apply(s, a), n);
  }

  lemma SweepsKept(s: State, s': State, n: string)
    requires OnlyOwn(s, s', n) && Sweeps(s) && Aim(s') == Aim(s)
    requires n in s'.nodeSets ==> n in s.nodeSets && s'.nodeSets[n].deleting == s.nodeSets[n].deleting
    requires n in s.nodeSets ==> n in s'.nodeSets
    ensures Sweeps(s')
  {}

  lemma SweepingStep(s: State, a: Action, before: set<string>)
    requires Base(s) && Enabled(s, a) && Calm(s, a)
    ensures Sweeping(s, before) ==> Sweeping(Apply(s, a), before)
  {
    SweptStep(s, a, before);
    if Sweeping(s, before) && !Swept(s, before) {
      OthersShrink(s, a);
      SteadyStep(s, a);
      if Others(Apply(s, a)) == before {
        SweepsStep(s, a, before);
      }
    }
  }

  lemma SweepStarts(s: State, before: set<string>)
    requires Base(s) && Steady(s) && Others(s) <= before && s.poolPass.PoolIdle?
    ensures Sweeping(PoolStep(s, PoolStart), before)
  {
    SweepingPlace(s, PoolStep(s, PoolStart));
  }

  lemma SweepingPlace(s: State, s': State)
    requires Steady(s) && s' == s.(poolPass := s'.poolPass)
    ensures Steady(s') && Others(s') == Others(s)
  {}

  // ---------- Vanishing ----------

  ghost predicate Vanished(s: State, m: string) {
    Doomed(s) && m !in s.nodeSets
  }

  ghost predicate Vanishing(s: State, m: string) {
    Doomed(s) && (m !in s.nodeSets || Leaving(s, m))
  }

  /** The pass that takes the finalizer off an older set goes on, or the set is gone. */
  lemma LeavingKept(s: State, a: Action, m: string)
    requires Base(s) && Doomed(s) && Enabled(s, a) && Calm(s, a) && m != Aim(s) && Leaving(s, m)
    ensures m !in Apply(s, a).nodeSets || Leaving(Apply(s, a), m)
  {
    match a
    case OfPool(p) =>
      PoolShape(s, p);
      PoolMakesNoOthers(s, p);
    case OfSet(n, p) =>
      MoveShape(s, n, p);
      if n == m { OwnLeaving(s, m, p); }
  }

  lemma VanishingStep(s: State, a: Action, m: string)
    requires Base(s) && Enabled(s, a) && Calm(s, a) && m != Aim(s)
    ensures Vanished(s, m) ==> Vanished(Apply(s, a), m)
    ensures Vanishing(s, m) ==> Vanishing(Apply(s, a), m)
  {
    if Doomed(s) {
      BaseStep(s, a);
      OthersShrink(s, a);
      SweptStep(s, a, Others(s));
      assert m in Apply(s, a).nodeSets ==> m in Others(Apply(s, a));
      if Leaving(s, m) { LeavingKept(s, a, m); }
    }
  }

  lemma VanishStarts(s: State, m: string)
    requires Base(s) && Doomed(s) && m !in s.passes && m != Aim(s)
    ensures Vanishing(StartStep(s, m), m)
  {}

  // ---------- Reporting ----------

  ghost predicate Alone(s: State) {
    Steady(s) && Others(s) == {}
  }

  /** The pool's pass carries the target's final status towards the pool. */
  ghost predicate Carries(s: State) {
    var p := s.poolPass;
    && Aim(s) in s.nodeSets && !p.PoolIdle? && p.inst.rv == s.pool.rv
    && (p.Fetching? || p.ListingSets? || p.Mirroring? || (p.Collecting? && forall n | n in p.left :: n == Aim(s)))
    && (HasFound(p) ==> p.found.status == s.nodeSets[Aim(s)].status)
  }

  /** The end: one node set, settled, and reported. */
  ghost predicate Converged(s: State) {
    && Alone(s) && Aim(s) in s.nodeSets
    && s.pool.status == Mirror(Aim(s), s.nodeSets[Aim(s)].status)
    && (HasFound(s.poolPass) ==> s.poolPass.found.status == s.nodeSets[Aim(s)].status)
  }

  ghost predicate Reporting(s: State) {
    Converged(s) || (Alone(s) && Carries(s))
  }

  lemma CollectReports(s: State)
    requires Base(s) && Alone(s) && PoolEnabled(s, PoolCollect)
    requires Alone(PoolStep(s, PoolCollect)) && SameTarget(s, PoolStep(s, PoolCollect))
    ensures Converged(s) ==> Converged(PoolStep(s, PoolCollect))
    ensures Carries(s) ==> Carries(PoolStep(s, PoolCollect))
  {
    var left := s.poolPass.left;
    assert left != [] ==> forall n | n in left[1..] :: n in left;
    assert left != [] ==> left[0] in left;
  }

  lemma MirrorReports(s: State)
    requires Base(s) && Alone(s) && PoolEnabled(s, PoolMirror)
    requires Alone(PoolStep(s, PoolMirror)) && SameTarget(s, PoolStep(s, PoolMirror))
    ensures Converged(s) || Carries(s) ==> Converged(PoolStep(s, PoolMirror))
  {}

  lemma PoolReports(s: State, m: PoolMove)
    requires Base(s) && Alone(s) && PoolEnabled(s, m) && m != PoolAbort
    requires Alone(PoolStep(s, m)) && SameTarget(s, PoolStep(s, m))
    ensures Converged(s) ==> Converged(PoolStep(s, m))
    ensures Carries(s) ==> Reporting(PoolStep(s, m))
  {
    if m.PoolCollect? {
      CollectReports(s);
    } else if m.PoolMirror? {
      MirrorReports(s);
    } else if m.PoolList? {
      assert forall n | n in s.nodeSets :: n in Others(s) || n == Aim(s);
    } else if m.PoolRespec? {
    } else {
    }
  }

  lemma ReportingStep(s: State, a: Action)
    requires Base(s) && Enabled(s, a) && Calm(s, a)
    ensures Alone(s) ==> Alone(Apply(s, a))
    ensures Converged(s) ==> Converged(Apply(s, a))
    ensures Reporting(s) ==> Reporting(Apply(s, a))
  {
    if Alone(s) {
      OthersShrink(s, a);
      SteadyStep(s, a);
      match a
      case OfPool(m) => PoolReports(s, m);
      case OfSet(n, m) => MoveShape(s, n, m);
    }
  }
}
