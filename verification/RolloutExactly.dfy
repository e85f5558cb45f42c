/** Exactly when a rollout to a version without a node set is safe: the runs that break the others. */
module RolloutExactly {
  import opened Types
  import opened Naming
  import opened Helpers
  import opened Protocol
  import opened Coherence
  import opened Rollout
  import opened Fairness

  /** No run of the rollout deletes a node set before the target was seen ready. */
  ghost predicate RolloutSafe(s: State) {
    forall acts, m |
      Run(s, acts) && AllSpare(acts, Target(s.pool)) && Discards(After(s, acts), m) ::
      EverReady(acts, Target(s.pool), s.pool.spec)
  }

  // ---------- Steady runs in which the target is not seen ready ----------

  ghost predicate Unseen(a: Action, t: string, spec: NodeSetSpec) {
    Spares(a, t) && !NowReady(a, t, spec, false)
  }

  ghost predicate Leads(s: State, acts: seq<Action>, x: State) {
    && Run(s, acts) && After(s, acts) == x
    && forall a | a in acts :: Unseen(a, Target(s.pool), s.pool.spec)
  }

  ghost predicate Reaches(s: State, x: State) {
    exists acts :: Leads(s, acts, x)
  }

  lemma ReachesItself(s: State)
    ensures Reaches(s, s)
  {
    assert Leads(s, [], s);
  }

  lemma Onward(s: State, x: State, a: Action)
    requires Reaches(s, x) && Enabled(x, a) && Unseen(a, Target(s.pool), s.pool.spec)
    ensures Reaches(s, Apply(x, a))
  {
    var acts :| Leads(s, acts, x);
    RunExtends(s, acts, a);
    assert Leads(s, acts + [a], Apply(x, a));
  }

  lemma ReachedCoherent(s: State, x: State)
    requires Coherent(s) && Reaches(s, x)
    ensures Coherent(x)
  {
    var acts :| Leads(s, acts, x);
    CoherentRun(s, acts);
  }

  lemma DiscardsTooEarly(s: State, x: State, m: string)
    requires Reaches(s, x) && Discards(x, m)
    ensures !RolloutSafe(s)
  {
    var acts :| Leads(s, acts, x);
    assert AllSpare(acts, Target(s.pool)) && !EverReady(acts, Target(s.pool), s.pool.spec);
  }

  /** Only node set `u` differs, with its pass and its scale set. */
  ghost predicate Beside(x: State, y: State, u: string) {
    && y.pool == x.pool && y.poolPass == x.poolPass
    && (forall n | n != u :: n in y.nodeSets <==> n in x.nodeSets)
    && (forall n | n != u && n in x.nodeSets :: y.nodeSets[n] == x.nodeSets[n])
  }

  lemma OwnMove(s: State, x: State, u: string, m: PassMove) returns (y: State)
    requires Reaches(s, x) && Enabled(x, OfSet(u, m)) && Unseen(OfSet(u, m), Target(s.pool), s.pool.spec)
    ensures Reaches(s, y) && y == Apply(x, OfSet(u, m)) && Beside(x, y, u)
  {
    y := Apply(x, OfSet(u, m));
    Onward(s, x, OfSet(u, m));
    MoveShape(x, u, m);
  }

  lemma WithoutPass(s: State, x: State, u: string) returns (y: State)
    requires Reaches(s, x)
    ensures Reaches(s, y) && Beside(x, y, u) && u !in y.passes && y.nodeSets == x.nodeSets
  {
    y := x;
    if u in x.passes {
      y := OwnMove(s, x, u, Abort);
    }
  }

  // ---------- A node set that lists what it should not ----------

  predicate Alive(x: State, u: string) {
    u in x.nodeSets && !x.nodeSets[u].deleting && x.nodeSets[u].spec.replicas.Some?
  }

  lemma WithFinalizer(s: State, x: State, u: string) returns (y: State)
    requires Reaches(s, x) && Alive(x, u) && u !in x.passes
    ensures Reaches(s, y) && Beside(x, y, u) && u !in y.passes
    ensures Alive(y, u) && FINALIZER in y.nodeSets[u].finalizers && y.nodeSets[u].spec == x.nodeSets[u].spec
  {
    y := x;
    if FINALIZER !in x.nodeSets[u].finalizers {
      var y1 := OwnMove(s, x, u, Start);
      y := OwnMove(s, y1, u, PutFinalizers);
    }
  }

  lemma WithMachines(s: State, x: State, u: string, count: nat) returns (y: State)
    requires Reaches(s, x) && Alive(x, u) && FINALIZER in x.nodeSets[u].finalizers && u !in x.passes
    ensures Reaches(s, y) && Beside(x, y, u) && u !in y.passes
    ensures Alive(y, u) && FINALIZER in y.nodeSets[u].finalizers && y.nodeSets[u].spec == x.nodeSets[u].spec
    ensures u in y.cloud && |y.cloud[u].vms| == count
  {
    var y1 := OwnMove(s, x, u, Start);
    var y2 := OwnMove(s, y1, u, ListVMs(false));
    var y3 := OwnMove(s, y2, u, Record);
    y := OwnMove(s, y3, u, CreateScaleSet(ScaleSet(count, Machines(count))));
  }

  /** A pass on `k` that lists `count` machines, and then nodes, is no proof that the target is ready. */
  predicate Unlike(s: State, u: string, k: NodeSetSpec, count: nat) {
    u != Target(s.pool) || k.replicas != Some(count) || k.version != s.pool.spec.version
  }

  /** A pass of `u` is about to store a list of `count` machines. */
  predicate Storing(x: State, u: string, count: nat) {
    && u in x.passes && x.passes[u].Recording? && Fresh(x, u, x.passes[u].inst)
    && |x.passes[u].inst.status.nodes| == count && !x.nodeSets[u].deleting
  }

  lemma WithListing(s: State, x: State, u: string) returns (y: State)
    requires Reaches(s, x) && u in x.passes && x.passes[u].Listing? && x.passes[u].inst.spec.replicas.Some?
    requires Fresh(x, u, x.passes[u].inst) && !x.nodeSets[u].deleting
    requires u in x.cloud && Unlike(s, u, x.passes[u].inst.spec, |x.cloud[u].vms|)
    ensures Reaches(s, y) && Beside(x, y, u) && Storing(y, u, |x.cloud[u].vms|)
  {
    y := OwnMove(s, x, u, ListVMs(true));
    if y.passes[u].Awaiting? {
      y := WithReadyNodes(s, y, u);
    }
  }

  lemma WithList(s: State, x: State, u: string) returns (y: State)
    requires Reaches(s, x) && Alive(x, u) && FINALIZER in x.nodeSets[u].finalizers && u !in x.passes
    requires u in x.cloud && Unlike(s, u, x.nodeSets[u].spec, |x.cloud[u].vms|)
    ensures Reaches(s, y) && Beside(x, y, u) && u in y.nodeSets
    ensures |y.nodeSets[u].status.nodes| == |x.cloud[u].vms|
  {
    var y1 := OwnMove(s, x, u, Start);
    var y2 := WithListing(s, y1, u);
    y := OwnMove(s, y2, u, Record);
  }

  lemma WithReadyNodes(s: State, x: State, u: string) returns (y: State)
    requires Reaches(s, x) && u in x.passes && x.passes[u].Awaiting?
    requires Wants(x.passes[u].inst, |x.passes[u].inst.status.nodes|)
    requires Unlike(s, u, x.passes[u].inst.spec, |x.passes[u].inst.status.nodes|)
    ensures Reaches(s, y) && Beside(x, y, u) && y.nodeSets == x.nodeSets
    ensures u in y.passes && y.passes[u] == Recording(Succeeded(x.passes[u].inst, x.kubeconfig), ThenDone)
  {
    var inst := x.passes[u].inst;
    var count := |inst.status.nodes|;
    ReadyNodesCount(u, count);
    y := OwnMove(s, x, u, NodesReady(inst.spec.version, count, ReadyNodes(u, count)));
  }

  /** Whatever count one likes, a living node set can come to list it. */
  lemma Listing(s: State, x: State, u: string, count: nat) returns (y: State)
    requires Reaches(s, x) && Alive(x, u) && Unlike(s, u, x.nodeSets[u].spec, count)
    ensures Reaches(s, y) && Beside(x, y, u) && u in y.nodeSets && |y.nodeSets[u].status.nodes| == count
  {
    var y1 := WithoutPass(s, x, u);
    var y2 := WithFinalizer(s, y1, u);
    var y3 := WithMachines(s, y2, u, count);
    y := WithList(s, y3, u);
  }

  // ---------- Other node sets ----------

  lemma EnvMoves(s: State, x: State, e: EnvMove, u: string) returns (y: State)
    requires Reaches(s, x) && EnvEnabled(x, e)
    requires match e {
      case ForeignCreate(n, _, _) => n == u && u != Target(s.pool)
      case ForeignFinalizers(n, _) => n == u
      case ForeignDelete(n) => n == u
      case _ => false
    }
    ensures Reaches(s, y) && y == EnvStep(x, e) && Beside(x, y, u) && y.passes == x.passes
  {
    y := EnvStep(x, e);
    Onward(s, x, Env(e));
  }

  /** Any node set can go. */
  lemma Gone(s: State, x: State, u: string) returns (y: State)
    requires Reaches(s, x)
    ensures Reaches(s, y) && Beside(x, y, u) && u !in y.nodeSets
  {
    y := WithoutPass(s, x, u);
    if u in y.nodeSets {
      var own := if FINALIZER in y.nodeSets[u].finalizers then [FINALIZER] else [];
      y := EnvMoves(s, y, ForeignFinalizers(u, own), u);
      if u in y.nodeSets {
        y := EnvMoves(s, y, ForeignDelete(u), u);
        if u in y.nodeSets {
          y := Released(s, y, u);
        }
      }
    }
  }

  lemma Released(s: State, x: State, u: string) returns (y: State)
    requires Reaches(s, x) && u !in x.passes
    requires u in x.nodeSets && x.nodeSets[u].deleting && x.nodeSets[u].finalizers == [FINALIZER]
    ensures Reaches(s, y) && Beside(x, y, u) && u !in y.nodeSets
  {
    var y1 := OwnMove(s, x, u, Start);
    var y2 := OwnMove(s, y1, u, DropScaleSet(false));
    assert Removed([FINALIZER], FINALIZER) == [] by {
      assert [FINALIZER][..0] == [];
    }
    y := OwnMove(s, y2, u, PutFinalizers);
  }

  /** Any other node set can come to list any count. */
  lemma OtherLists(s: State, x: State, u: string, count: nat) returns (y: State)
    requires Reaches(s, x) && u != Target(s.pool)
    ensures Reaches(s, y) && Beside(x, y, u) && u in y.nodeSets && |y.nodeSets[u].status.nodes| == count
  {
    var y1 := Gone(s, x, u);
    var y2 := EnvMoves(s, y1, ForeignCreate(u, NodeSetSpec("", Some(count), ""), [FINALIZER]), u);
    y := Listing(s, y2, u, count);
  }

  lemma OtherPresent(s: State, x: State, m: string) returns (y: State)
    requires Reaches(s, x) && m != Target(s.pool)
    ensures Reaches(s, y) && Beside(x, y, m) && m in y.nodeSets
  {
    y := x;
    if m !in x.nodeSets {
      y := EnvMoves(s, x, ForeignCreate(m, NodeSetSpec("", None, ""), []), m);
    }
  }

  function Besides(u: string, t: string): (m: string)
    ensures m != u && m != t
  {
    u + t + "-"
  }

  // ---------- Passes of the pool that delete too early ----------

  lemma PoolMoves(s: State, x: State, m: PoolMove) returns (y: State)
    requires Reaches(s, x) && PoolEnabled(x, m)
    ensures Reaches(s, y) && y == PoolStep(x, m)
  {
    y := PoolStep(x, m);
    Onward(s, x, OfPool(m));
  }

  lemma ListingBreaks(s: State, x: State)
    requires Reaches(s, x) && x.poolPass.ListingSets?
    ensures !RolloutSafe(s)
  {
    var m := Besides(Target(x.poolPass.inst), Target(s.pool));
    var y := OtherPresent(s, x, m);
    var order := ListingWithFirst(y, m);
    var z := PoolMoves(s, y, PoolList(order));
    DiscardsTooEarly(s, z, m);
  }

  lemma RespecBreaks(s: State, x: State)
    requires Coherent(s) && Reaches(s, x) && x.poolPass.Respecing?
    requires Fresh(x, Target(x.poolPass.inst), x.poolPass.found)
    requires x.poolPass.inst.spec.replicas == Some(|x.poolPass.found.status.nodes|)
    ensures !RolloutSafe(s)
  {
    ReachedCoherent(s, x);
    var y := PoolMoves(s, x, PoolRespec);
    ListingBreaks(s, y);
  }

  lemma FetchBreaks(s: State, x: State)
    requires Coherent(s) && Reaches(s, x) && x.poolPass.Fetching? && Target(x.poolPass.inst) in x.nodeSets
    requires x.poolPass.inst.spec.replicas == Some(|x.nodeSets[Target(x.poolPass.inst)].status.nodes|)
    ensures !RolloutSafe(s)
  {
    var y := PoolMoves(s, x, PoolFetch);
    if y.poolPass.Respecing? {
      RespecBreaks(s, y);
    } else {
      ListingBreaks(s, y);
    }
  }

  lemma OtherFetchBreaks(s: State, x: State)
    requires Coherent(s) && Reaches(s, x) && x.poolPass.Fetching?
    requires Target(x.poolPass.inst) != Target(s.pool) && Possible(x.poolPass.inst.spec)
    ensures !RolloutSafe(s)
  {
    var y := OtherLists(s, x, Target(x.poolPass.inst), x.poolPass.inst.spec.replicas.value);
    FetchBreaks(s, y);
  }

  /** The pool wants a count that the target lists. */
  lemma TargetBreaks(s: State, x: State)
    requires Coherent(s) && Reaches(s, x) && x.poolPass.PoolIdle? && x.pool == s.pool
    requires Target(s.pool) in x.nodeSets
    requires s.pool.spec.replicas == Some(|x.nodeSets[Target(s.pool)].status.nodes|)
    ensures !RolloutSafe(s)
  {
    var y := PoolMoves(s, x, PoolStart);
    FetchBreaks(s, y);
  }

  lemma CreateBreaks(s: State, x: State)
    requires Coherent(s) && Reaches(s, x) && x.poolPass.CreatingSet? && x.pool == s.pool
    requires Target(s.pool) !in x.nodeSets && Target(x.poolPass.inst) == Target(s.pool)
    requires !Fits(x.poolPass.inst.spec, s.pool.spec)
    ensures !RolloutSafe(s)
  {
    var t := Target(s.pool);
    var y := PoolMoves(s, x, PoolCreate);
    var z := Listing(s, y, t, s.pool.spec.replicas.value);
    TargetBreaks(s, z);
  }

  lemma {:induction false} CollectBreaks(s: State, x: State)
    requires Reaches(s, x) && x.poolPass.Collecting?
    requires var other := FirstOther(x.poolPass.left, Target(x.poolPass.inst));
      other.Some? && other.value != Target(s.pool)
    ensures !RolloutSafe(s)
    decreases |x.poolPass.left|
  {
    var m := x.poolPass.left[0];
    if m == Target(x.poolPass.inst) {
      var y := PoolMoves(s, x, PoolCollect);
      CollectBreaks(s, y);
    } else {
      var y := OtherPresent(s, x, m);
      DiscardsTooEarly(s, y, m);
    }
  }

  lemma ZeroBreaks(s: State)
    requires Coherent(s) && s.pool.spec.replicas == Some(0)
    ensures !RolloutSafe(s)
  {
    ReachesItself(s);
    var x := Gone(s, s, Target(s.pool));
    if !x.poolPass.PoolIdle? {
      x := PoolMoves(s, x, PoolAbort);
    }
    var y1 := PoolMoves(s, x, PoolStart);
    var y2 := PoolMoves(s, y1, PoolFetch);
    var y3 := PoolMoves(s, y2, PoolCreate);
    TargetBreaks(s, y3);
  }

  lemma HarmfulBreaks(s: State)
    requires Begins(s) && !Harmless(s, Target(s.pool), s.pool.spec)
    ensures !RolloutSafe(s)
  {
    ReachesItself(s);
    match s.poolPass
    case Fetching(inst) =>
      if Target(inst) == Target(s.pool) {
        var y := PoolMoves(s, s, PoolFetch);
        CreateBreaks(s, y);
      } else {
        OtherFetchBreaks(s, s);
      }
    case CreatingSet(_) => CreateBreaks(s, s);
    case Respecing(_, _) => RespecBreaks(s, s);
    case ListingSets(_, _) => ListingBreaks(s, s);
    case Collecting(_, _, _) => CollectBreaks(s, s);
  }

  /** A rollout to a version without a node set is safe in every run exactly when the pool does not ask for zero
      machines and the pass of the pool that may still be running is harmless. */
  lemma RolloutSafeExactly(s: State)
    requires Begins(s)
    ensures RolloutSafe(s) <==> s.pool.spec.replicas != Some(0) && Harmless(s, Target(s.pool), s.pool.spec)
  {
    if s.pool.spec.replicas == Some(0) {
      ZeroBreaks(s);
    } else if !Harmless(s, Target(s.pool), s.pool.spec) {
      HarmfulBreaks(s);
    } else {
      BeginsQuietly(s);
      forall acts, m |
        Run(s, acts) && AllSpare(acts, Target(s.pool)) && Discards(After(s, acts), m)
        ensures EverReady(acts, Target(s.pool), s.pool.spec)
      {
        NoEarlyDeletion(s, acts, m);
      }
    }
  }

  lemma ConfirmingBreaks(s: State)
    requires Coherent(s) && s.poolPass.PoolIdle? && Confirming(s, Target(s.pool))
    requires s.pool.spec.replicas == Some(|s.passes[Target(s.pool)].inst.status.nodes|)
    ensures !RolloutSafe(s)
  {
    ReachesItself(s);
    assert PassOk(s, Target(s.pool));
    var y := OwnMove(s, s, Target(s.pool), Record);
    TargetBreaks(s, y);
  }

  /** Where no pass of the pool is running, the rollout to any version, with or without a node set of its own, is
      safe in every run exactly when the pool does not ask for zero machines, and the target does not list the
      wanted count yet, is not about to, and, unless it is marked for deletion, has a spec that keeps it from it. */
  lemma ResumedRolloutSafeExactly(s: State)
    requires Coherent(s) && s.poolPass.PoolIdle?
    ensures RolloutSafe(s) <==>
      s.pool.spec.replicas != Some(0) && SetFollows(s, Target(s.pool), s.pool.spec, false)
  {
    var t := Target(s.pool);
    if s.pool.spec.replicas == Some(0) {
      ZeroBreaks(s);
    } else if SetFollows(s, t, s.pool.spec, false) {
      forall acts, m | Run(s, acts) && AllSpare(acts, t) && Discards(After(s, acts), m)
        ensures EverReady(acts, t, s.pool.spec)
      {
        NoEarlyDeletion(s, acts, m);
      }
    } else if Confirming(s, t) && s.pool.spec.replicas == Some(|s.passes[t].inst.status.nodes|) {
      ConfirmingBreaks(s);
    } else {
      ReachesItself(s);
      var x := s;
      if s.pool.spec.replicas != Some(|s.nodeSets[t].status.nodes|) {
        x := Listing(s, s, t, s.pool.spec.replicas.value);
      }
      TargetBreaks(s, x);
    }
  }

  // ---------- A pass that read an older spec ----------

  /** A pass that is about to delete when the rollout begins deletes, ready or not; only its own target, the
      previous version, is spared. */
  lemma StaleCollectionBreaks(s: State, m: string)
    requires Begins(s) && Discards(s, m)
    ensures !RolloutSafe(s) && m != Target(s.poolPass.inst)
  {
    ReachesItself(s);
    DiscardsTooEarly(s, s, m);
  }

  lemma CollectingBeforeTheChange(s: State, m: string) returns (x: State)
    requires s == State(1, "", NodePool(0, "p", NodeSetSpec("1", Some(0), ""), NodePoolStatus("", 0, 0, "", "")),
      map[], map[], map[], PoolIdle)
    requires m != Target(s.pool)
    ensures Reaches(s, x) && x.pool == s.pool && x.nodeSets.Keys == {m, Target(s.pool)}
    ensures x.poolPass.Collecting? && x.poolPass.inst == s.pool && x.poolPass.left != [] && x.poolPass.left[0] == m
  {
    ReachesItself(s);
    var y1 := OtherPresent(s, s, m);
    var y2 := PoolMoves(s, y1, PoolStart);
    var y3 := PoolMoves(s, y2, PoolFetch);
    var y4 := PoolMoves(s, y3, PoolCreate);
    var y5 := PoolMoves(s, y4, PoolStart);
    var y6 := PoolMoves(s, y5, PoolFetch);
    var order := ListingWithFirst(y6, m);
    x := PoolMoves(s, y6, PoolList(order));
  }

  /** Such rollouts are reached from the start: the change to three machines on version "2" finds the pass for
      version "1" in the middle of its deletions. */
  lemma StaleCollectionIsReached()
    ensures exists s, acts ::
      && Initial(s) && Run(s, acts) && Begins(After(s, acts))
      && After(s, acts).pool.spec.replicas == Some(3) && !RolloutSafe(After(s, acts))
  {
    var pool := NodePool(0, "p", NodeSetSpec("1", Some(0), ""), NodePoolStatus("", 0, 0, "", ""));
    var s := State(1, "", pool, map[], map[], map[], PoolIdle);
    var spec := NodeSetSpec("2", Some(3), "");
    var old', new' := Target(pool), Target(pool.(spec := spec));
    var m := Besides(old', new');
    NearVersionsSeparate("p", "1", "2", 0);
    var x := CollectingBeforeTheChange(s, m);
    var acts :| Leads(s, acts, x);
    RunExtends(s, acts, Env(SetPoolSpec(spec)));
    var all := acts + [Env(SetPoolSpec(spec))];
    CoherentRun(s, all);
    StaleCollectionBreaks(After(s, all), m);
    assert Initial(s) && Run(s, all);
  }
}
