/** From the start, through any history that ends with the last change of the pool's spec, to convergence. */
module History {
  import opened Types
  import opened Protocol
  import opened Coherence
  import opened Orphans
  import opened Stages
  import opened Convergence
  import opened Cleanup
  import opened Rounds
  import opened Fairness

  predicate CountsItsOwn(made: ScaleSet) { made.capacity == |made.vms| }

  predicate OwnFinalizers(finalizers: seq<string>) { finalizers == [] || finalizers == [FINALIZER] }

  /** What may happen before the last change. Users ask for possible counts and put no finalizers of their own on
      node sets; the cloud counts the machines it has, and a deletion of a scale set does not fail. Every other call
      may fail, every pass may crash, and everything may interleave. */
  predicate Tolerated(a: Action) {
    match a
    case Env(SetPoolSpec(spec)) => Possible(spec)
    case Env(ForeignCreate(_, spec, finalizers)) => Possible(spec) && OwnFinalizers(finalizers)
    case Env(ForeignRespec(_, spec)) => Possible(spec)
    case Env(ForeignFinalizers(_, finalizers)) => OwnFinalizers(finalizers)
    case Env(ForeignDelete(_)) => true
    case Env(Drift(_, after)) => after.Some? ==> CountsItsOwn(after.value)
    case OfSet(_, m) =>
      (match m
       case DropScaleSet(gone) => gone
       case CreateScaleSet(made) => CountsItsOwn(made)
       case DeleteVM(_, rest) => CountsItsOwn(rest)
       case Resize(made) => CountsItsOwn(made)
       case _ => true)
    case OfPool(_) => true
  }

  lemma EnvFit(s: State, e: EnvMove)
    requires Fit(s) && EnvEnabled(s, e) && Tolerated(Env(e))
    ensures var s' := EnvStep(s, e);
      && SetsSound(s') && Possible(s'.pool.spec) && s'.poolPass == s.poolPass
      && forall n :: Counted(s', n)
  {
    forall n ensures Counted(EnvStep(s, e), n) {
      assert Counted(s, n);
    }
  }

  lemma OwnMoveCounts(s: State, n: string, m: PassMove)
    requires CloudCounts(s) && Enabled(s, OfSet(n, m)) && Tolerated(OfSet(n, m))
    ensures Counted(Apply(s, OfSet(n, m)), n)
  {
    assert Counted(s, n);
  }

  lemma ToleratedStep(s: State, a: Action)
    requires Fit(s) && Enabled(s, a) && Tolerated(a)
    ensures Fit(Apply(s, a))
  {
    CoherentStep(s, a);
    HeldStep(s, a);
    match a
    case Env(e) => EnvFit(s, e);
    case OfPool(m) =>
      PoolShape(s, m);
      PoolMoveFit(s, m);
      CountsKept(s, Apply(s, a), "", false);
    case OfSet(n, m) =>
      MoveShape(s, n, m);
      OwnMoveSound(s, n, m);
      OwnMoveCounts(s, n, m);
      CountsKept(s, Apply(s, a), n, true);
  }

  lemma {:induction false} HistoryIsFit(s: State, history: seq<Action>)
    requires Initial(s) && Possible(s.pool.spec) && Run(s, history) && forall a | a in history :: Tolerated(a)
    ensures Fit(After(s, history))
    decreases |history|
  {
    if history == [] {
      InitialIsSound(s);
    } else {
      HistoryIsFit(s, history[..|history| - 1]);
      assert history[|history| - 1] in history;
      ToleratedStep(After(s, history[..|history| - 1]), history[|history| - 1]);
    }
  }

  /** Whatever passes the last change of the spec finds in flight: once calls work and every reconciler completes
      passes, the namespace comes to the one wanted node set, and stays there. */
  lemma LastChangeConverges(s: State, history: seq<Action>, spec: NodeSetSpec, rounds: seq<seq<Action>>, names: set<string>)
    requires Initial(s) && Possible(s.pool.spec) && Run(s, history) && forall a | a in history :: Tolerated(a)
    requires Possible(spec)
    requires var here := EnvStep(After(s, history), SetPoolSpec(spec));
      && Expected(here) <= names && AllRounds(here, rounds, names)
      && |rounds| >= GOALS + 2 + Lag(here) + |Older(here)|
    ensures var end := End(EnvStep(After(s, history), SetPoolSpec(spec)), rounds, names);
      Base(end) && Converged(end) && end.pool.spec == spec
  {
    var here := EnvStep(After(s, history), SetPoolSpec(spec));
    HistoryIsFit(s, history);
    ToleratedStep(After(s, history), Env(SetPoolSpec(spec)));
    ConvergesWithinRounds(here, rounds, names);
    SpecStays(here, rounds, names);
  }

  lemma {:induction false} SpecStays(s: State, rounds: seq<seq<Action>>, names: set<string>)
    requires Fit(s) && AllRounds(s, rounds, names)
    ensures Fit(End(s, rounds, names)) && End(s, rounds, names).pool.spec == s.pool.spec
    decreases |rounds|
  {
    if rounds != [] {
      SpecStays(s, rounds[..|rounds| - 1], names);
      SpecStaysInRun(End(s, rounds[..|rounds| - 1], names), rounds[|rounds| - 1]);
    }
  }

  lemma {:induction false} SpecStaysInRun(s: State, acts: seq<Action>)
    requires Fit(s) && Run(s, acts) && CalmRun(s, acts)
    ensures Fit(After(s, acts)) && After(s, acts).pool.spec == s.pool.spec
    decreases |acts|
  {
    if acts != [] {
      SpecStaysInRun(s, acts[..|acts| - 1]);
      FitStep(After(s, acts[..|acts| - 1]), acts[|acts| - 1]);
    }
  }
}
