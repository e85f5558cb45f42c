/** Rollouts: no older node set is given up before the new one was seen ready at full count. */
module Rollout {
  import opened Types
  import opened Helpers
  import opened Protocol
  import opened Coherence

  // ---------- Statement ----------

  /** The spec stays, and nobody but the controllers creates or edits the target. */
  predicate Spares(a: Action, t: string) {
    a.Env? ==>
      && !a.e.SetPoolSpec?
      && !(a.e.ForeignCreate? && a.e.name == t)
      && !(a.e.ForeignRespec? && a.e.name == t)
  }

  ghost predicate AllSpare(acts: seq<Action>, t: string) {
    forall a | a in acts :: Spares(a, t)
  }

  /** A pass of `t` waited for its nodes with success: `count` machines on the version, and that many nodes. */
  predicate SeenReady(a: Action, t: string, version: string, count: int) {
    && a.OfSet? && a.set' == t && a.move.NodesReady? && a.move.version == version && a.move.count == count
    && CountReady(a.move.nodes, t) >= count
  }

  ghost predicate EverReady(acts: seq<Action>, t: string, spec: NodeSetSpec) {
    exists a :: a in acts && spec.replicas.Some? && SeenReady(a, t, spec.version, spec.replicas.value)
  }

  /** The next step of the pool's pass is a delete call for node set `m`. */
  predicate Discards(s: State, m: string) {
    && s.poolPass.Collecting? && s.poolPass.left != [] && s.poolPass.left[0] == m
    && m != Target(s.poolPass.inst) && m in s.nodeSets
  }

  /** The rollout begins: the pool asks for a version that has no node set. */
  ghost predicate Begins(s: State) {
    Coherent(s) && Target(s.pool) !in s.nodeSets
  }

  /** A target made with `spec'` cannot list the count wanted by `spec` before its nodes were seen at it. */
  predicate Fits(spec': NodeSetSpec, spec: NodeSetSpec) {
    || !Possible(spec)
    || spec'.replicas.None?
    || (spec'.replicas == spec.replicas && spec'.version == spec.version)
  }

  /** The first listed name that is not the pass's own target. */
  function FirstOther(left: seq<string>, own: string): Option<string> {
    if left == [] then None
    else if left[0] != own then Some(left[0])
    else FirstOther(left[1..], own)
  }

  /** Whatever happens next, the pool's running pass, which may have read an older spec, deletes nothing before the
      target `t` was seen ready at `spec`, and makes no target that could list the count too early. */
  predicate Harmless(s: State, t: string, spec: NodeSetSpec) {
    var p := s.poolPass;
    match p
    case Fetching(inst) =>
      if Target(inst) == t then inst.spec == spec || (t !in s.nodeSets && Fits(inst.spec, spec))
      else !Possible(inst.spec)
    case CreatingSet(inst) => Target(inst) == t ==> Fits(inst.spec, spec)
    case Respecing(inst, found) =>
      Fresh(s, Target(inst), found) ==>
        inst.spec.replicas != Some(|found.status.nodes|) && (Target(inst) == t ==> inst.spec == spec)
    case ListingSets(_, _) => false
    case Collecting(inst, _, left) =>
      var other := FirstOther(left, Target(inst)); other == None || (other == Some(t) && t !in s.nodeSets)
    case _ => true
  }

  // ---------- Invariant ----------

  /** A pass is about to record success for the current object. */
  predicate Confirming(s: State, t: string) {
    && t in s.passes && s.passes[t].Recording? && s.passes[t].next.ThenDone?
    && Fresh(s, t, s.passes[t].inst)
  }

  ghost predicate SetFollows(s: State, t: string, spec: NodeSetSpec, ready: bool) {
    && (t in s.nodeSets ==>
        && (!s.nodeSets[t].deleting ==> Fits(s.nodeSets[t].spec, spec))
        && (spec.replicas == Some(|s.nodeSets[t].status.nodes|) ==> ready))
    && (Confirming(s, t) && spec.replicas == Some(|s.passes[t].inst.status.nodes|) ==> ready)
  }

  ghost predicate PoolFollows(s: State, t: string, spec: NodeSetSpec, ready: bool) {
    s.pool.spec == spec && Target(s.pool) == t && (ready || Harmless(s, t, spec))
  }

  ghost predicate Follows(s: State, t: string, spec: NodeSetSpec, ready: bool) {
    PoolFollows(s, t, spec, ready) && SetFollows(s, t, spec, ready)
  }

  predicate NowReady(a: Action, t: string, spec: NodeSetSpec, ready: bool) {
    ready || (spec.replicas.Some? && SeenReady(a, t, spec.version, spec.replicas.value))
  }

  lemma RecordFollows(s: State, t: string, spec: NodeSetSpec, ready: bool)
    requires Coherent(s) && SetFollows(s, t, spec, ready) && Enabled(s, OfSet(t, Record))
    ensures SetFollows(Apply(s, OfSet(t, Record)), t, spec, ready)
  {
    assert PassOk(s, t);
  }

  lemma TargetMoveFollows(s: State, t: string, m: PassMove, spec: NodeSetSpec, ready: bool)
    requires Coherent(s) && SetFollows(s, t, spec, ready) && Enabled(s, OfSet(t, m))
    ensures SetFollows(Apply(s, OfSet(t, m)), t, spec, NowReady(OfSet(t, m), t, spec, ready))
  {
    assert PassOk(s, t);
    if m.Record? {
      RecordFollows(s, t, spec, ready);
    }
  }

  /** A write of others leaves the target's status, or makes the target anew. */
  ghost predicate TargetKept(s: State, s': State, t: string, spec: NodeSetSpec) {
    t in s'.nodeSets ==>
      && (!s'.nodeSets[t].deleting ==> Fits(s'.nodeSets[t].spec, spec))
      && ((t in s.nodeSets && s'.nodeSets[t].status == s.nodeSets[t].status)
          || s'.nodeSets[t].status == EMPTY_STATUS)
  }

  lemma OthersFollow(s: State, s': State, t: string, spec: NodeSetSpec, ready: bool)
    requires Coherent(s) && SetFollows(s, t, spec, ready) && spec.replicas != Some(0)
    requires OneWrite(s, s') && NoPassMoves(s, s') && TargetKept(s, s', t, spec)
    ensures SetFollows(s', t, spec, ready)
  {
    assert PassOk(s, t);
  }

  /** The pool's pass is harmless still when others have moved. */
  lemma HarmlessKept(s: State, s': State, t: string, spec: NodeSetSpec)
    requires Coherent(s) && Harmless(s, t, spec) && s'.poolPass == s.poolPass
    requires OneWrite(s, s') && (t in s'.nodeSets ==> t in s.nodeSets)
    ensures Harmless(s', t, spec)
  {}

  lemma RespecKeepsTarget(s: State, t: string, spec: NodeSetSpec)
    requires Coherent(s) && SetFollows(s, t, spec, false) && Harmless(s, t, spec) && PoolEnabled(s, PoolRespec)
    ensures TargetKept(s, PoolStep(s, PoolRespec), t, spec)
  {}

  lemma RespecHarmless(s: State, t: string, spec: NodeSetSpec)
    requires Coherent(s) && Harmless(s, t, spec) && PoolEnabled(s, PoolRespec)
    ensures Harmless(PoolStep(s, PoolRespec), t, spec)
  {}

  lemma CollectHarmless(s: State, t: string, spec: NodeSetSpec)
    requires Harmless(s, t, spec) && PoolEnabled(s, PoolCollect)
    ensures var s' := PoolStep(s, PoolCollect); Harmless(s', t, spec) && s'.nodeSets == s.nodeSets
  {}

  lemma FetchHarmless(s: State, t: string, spec: NodeSetSpec)
    requires Coherent(s) && SetFollows(s, t, spec, false) && Harmless(s, t, spec) && PoolEnabled(s, PoolFetch)
    ensures Harmless(PoolStep(s, PoolFetch), t, spec)
  {}

  /** A step of a harmless pass. */
  lemma QuietPoolMove(s: State, m: PoolMove, t: string, spec: NodeSetSpec)
    requires Coherent(s) && Follows(s, t, spec, false) && PoolEnabled(s, m)
    ensures PoolFollows(PoolStep(s, m), t, spec, false) && TargetKept(s, PoolStep(s, m), t, spec)
  {
    if m.PoolRespec? {
      RespecKeepsTarget(s, t, spec);
      RespecHarmless(s, t, spec);
    } else if m.PoolCollect? {
      CollectHarmless(s, t, spec);
    } else if m.PoolFetch? {
      FetchHarmless(s, t, spec);
    }
  }

  lemma EnvMoveFollows(s: State, e: EnvMove, t: string, spec: NodeSetSpec)
    requires SetFollows(s, t, spec, false) && EnvEnabled(s, e) && Spares(Env(e), t)
    ensures var s' := EnvStep(s, e);
      s'.pool == s.pool && TargetKept(s, s', t, spec) && (t in s'.nodeSets ==> t in s.nodeSets)
  {}

  /** A step before the target was seen ready. */
  lemma QuietStep(s: State, a: Action, t: string, spec: NodeSetSpec)
    requires Coherent(s) && Follows(s, t, spec, false) && Enabled(s, a) && Spares(a, t)
    requires spec.replicas != Some(0)
    ensures Follows(Apply(s, a), t, spec, NowReady(a, t, spec, false))
  {
    var s' := Apply(s, a);
    match a
    case Env(e) =>
      EnvShape(s, e);
      EnvMoveFollows(s, e, t, spec);
      OthersFollow(s, s', t, spec, false);
      HarmlessKept(s, s', t, spec);
    case OfPool(m) =>
      PoolShape(s, m);
      QuietPoolMove(s, m, t, spec);
      OthersFollow(s, s', t, spec, false);
    case OfSet(n, m) =>
      MoveShape(s, n, m);
      MoveMakesNone(s, n, m);
      HarmlessKept(s, s', t, spec);
      if n == t {
        TargetMoveFollows(s, t, m, spec, false);
      }
  }

  lemma MoveMakesNone(s: State, n: string, m: PassMove)
    requires Enabled(s, OfSet(n, m))
    ensures n in Apply(s, OfSet(n, m)).nodeSets ==> n in s.nodeSets
  {}

  lemma EverReadyGrows(acts: seq<Action>, a: Action, t: string, spec: NodeSetSpec)
    ensures EverReady(acts + [a], t, spec) <==> NowReady(a, t, spec, EverReady(acts, t, spec))
  {
    assert forall b :: b in acts + [a] <==> b in acts || b == a;
  }

  lemma {:induction false} FollowsRun(s: State, acts: seq<Action>, t: string, spec: NodeSetSpec)
    requires Coherent(s) && Follows(s, t, spec, false) && spec.replicas != Some(0)
    requires Run(s, acts) && AllSpare(acts, t)
    ensures Coherent(After(s, acts))
    ensures EverReady(acts, t, spec) || Follows(After(s, acts), t, spec, false)
    decreases |acts|
  {
    if acts != [] {
      var front, a := acts[..|acts| - 1], acts[|acts| - 1];
      assert acts == front + [a];
      FollowsRun(s, front, t, spec);
      CoherentStep(After(s, front), a);
      EverReadyGrows(front, a, t, spec);
      if !EverReady(front, t, spec) {
        QuietStep(After(s, front), a, t, spec);
      }
    }
  }

  // ---------- The theorems ----------

  /** Nothing about the target is ahead of its nodes, and the running pass is harmless. */
  ghost predicate Quiet(s: State) {
    Coherent(s) && Follows(s, Target(s.pool), s.pool.spec, false)
  }

  /** Whatever is interleaved, the pool deletes another node set only when the target was seen ready at full count
      before; the target may be new or half-made. */
  lemma NoEarlyDeletion(s: State, acts: seq<Action>, m: string)
    requires Quiet(s) && s.pool.spec.replicas != Some(0)
    requires Run(s, acts) && AllSpare(acts, Target(s.pool)) && Discards(After(s, acts), m)
    ensures EverReady(acts, Target(s.pool), s.pool.spec)
  {
    FollowsRun(s, acts, Target(s.pool), s.pool.spec);
  }

  /** A rollout to a version without a node set is quiet exactly when the running pass of the pool is harmless; a
      pass that read the wanted spec and has not listed anything is. */
  lemma BeginsQuietly(s: State)
    requires Begins(s)
    ensures Quiet(s) <==> Harmless(s, Target(s.pool), s.pool.spec)
    ensures s.poolPass.PoolIdle? ==> Quiet(s)
  {}

  // ---------- Exactly when ----------

  lemma {:induction false} SomeOrder(names: set<string>) returns (order: seq<string>)
    ensures forall n :: n in order <==> n in names
    ensures forall i, j | 0 <= i < j < |order| :: order[i] != order[j]
    decreases names
  {
    if names == {} {
      order := [];
    } else {
      var n :| n in names;
      var rest := SomeOrder(names - {n});
      order := [n] + rest;
      assert forall k :: k in order <==> k == n || k in rest;
    }
  }

  lemma ListingWithFirst(s: State, m: string) returns (order: seq<string>)
    requires m in s.nodeSets
    ensures ListsAll(s, order) && order != [] && order[0] == m
  {
    var rest := SomeOrder(s.nodeSets.Keys - {m});
    order := [m] + rest;
    assert forall k :: k in order <==> k == m || k in rest;
  }

  /** A run of the pool's pass alone, without any wait for nodes, that is about to delete `m`. */
  ghost predicate Premature(s: State, acts: seq<Action>, m: string) {
    && Run(s, acts) && (forall a | a in acts :: a.OfPool?)
    && Discards(After(s, acts), m)
  }

  lemma ListedTargetIsFetched(s: State)
    requires s.poolPass.PoolIdle?
    requires Target(s.pool) in s.nodeSets && s.nodeSets[Target(s.pool)].spec == s.pool.spec
    requires s.pool.spec.replicas == Some(|s.nodeSets[Target(s.pool)].status.nodes|)
    ensures var front := [OfPool(PoolStart)] + [OfPool(PoolFetch)];
      Run(s, front) && After(s, front) == s.(poolPass := ListingSets(s.pool, s.nodeSets[Target(s.pool)]))
  {
    var a1, a2 := OfPool(PoolStart), OfPool(PoolFetch);
    RunExtends(s, [], a1);
    assert [] + [a1] == [a1];
    RunExtends(s, [a1], a2);
  }

  /** Where the target lists as many machines as the pool wants, the next pass deletes, ready or not. So a
      version that already had a node set, even one marked for deletion, carries no guarantee. */
  lemma ListedTargetIsTrusted(s: State, m: string) returns (acts: seq<Action>)
    requires s.poolPass.PoolIdle? && m in s.nodeSets && m != Target(s.pool)
    requires Target(s.pool) in s.nodeSets && s.nodeSets[Target(s.pool)].spec == s.pool.spec
    requires s.pool.spec.replicas == Some(|s.nodeSets[Target(s.pool)].status.nodes|)
    ensures Premature(s, acts, m)
  {
    var order := ListingWithFirst(s, m);
    var front, a := [OfPool(PoolStart)] + [OfPool(PoolFetch)], OfPool(PoolList(order));
    ListedTargetIsFetched(s);
    RunExtends(s, front, a);
    acts := front + [a];
  }

  /** Changing the count to what the half-made target happens to list makes the next pass delete the older sets. */
  lemma CountChangeBreaksRollout(s: State, m: string) returns (acts: seq<Action>)
    requires Coherent(s) && s.poolPass.PoolIdle? && m in s.nodeSets && m != Target(s.pool)
    requires Target(s.pool) in s.nodeSets
    ensures var count := |s.nodeSets[Target(s.pool)].status.nodes|;
      var s' := EnvStep(s, SetPoolSpec(s.pool.spec.(replicas := Some(count))));
      Premature(s', acts, m)
  {
    var t := Target(s.pool);
    var spec := s.pool.spec.(replicas := Some(|s.nodeSets[t].status.nodes|));
    var s' := EnvStep(s, SetPoolSpec(spec));
    if s.nodeSets[t].spec == spec {
      acts := ListedTargetIsTrusted(s', m);
    } else {
      var a1, a2, a3 := OfPool(PoolStart), OfPool(PoolFetch), OfPool(PoolRespec);
      RunExtends(s', [], a1);
      assert [] + [a1] == [a1];
      RunExtends(s', [a1], a2);
      RunExtends(s', [a1] + [a2], a3);
      var s3 := After(s', [a1] + [a2] + [a3]);
      var order := ListingWithFirst(s3, m);
      RunExtends(s', [a1] + [a2] + [a3], OfPool(PoolList(order)));
      acts := [a1] + [a2] + [a3] + [OfPool(PoolList(order))];
    }
  }
}
