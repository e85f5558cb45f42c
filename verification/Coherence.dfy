/** What the resource versions guarantee: a pass's copy that is still current agrees with the stored object. */
module Coherence {
  import opened Types
  import opened Helpers
  import opened Protocol

  /** What a NodeSet pass knows about its own copy, whatever happened to the stored object since. */
  predicate WellFormed(p: Pass, kubeconfig: string) {
    match p
    case Recording(inst, ThenScale) =>
      inst.status.state == SCALING && inst.spec.replicas.Some? && !Wants(inst, |inst.status.nodes|)
    case Recording(inst, ThenCreate) => inst.status.state == UPDATING
    case Recording(inst, ThenDone) =>
      inst == Succeeded(inst, kubeconfig) && Wants(inst, |inst.status.nodes|)
    case Awaiting(inst) => Wants(inst, |inst.status.nodes|)
    case Scaling(inst, k, drained) =>
      && inst.spec.replicas.Some? && Kept(inst) <= k <= |inst.status.nodes|
      && (drained ==> k < |inst.status.nodes|)
    case _ => true
  }

  /** What it knows while the stored object `cur` still has the resource version it read. */
  predicate Agrees(p: Pass, cur: NodeSet) {
    && p.inst.spec == cur.spec
    && match p
       case AddingFinalizer(inst) =>
         !cur.deleting && FINALIZER !in cur.finalizers && inst.finalizers == cur.finalizers + [FINALIZER]
       case RemovingFinalizer(inst) =>
         && cur.deleting && FINALIZER in cur.finalizers && inst.finalizers == Removed(cur.finalizers, FINALIZER)
       case DroppingScaleSet(inst) => inst == cur && cur.deleting && FINALIZER in cur.finalizers
       case Recording(inst, ThenCreate) =>
         !cur.deleting && FINALIZER in cur.finalizers && inst.status == cur.status.(state := UPDATING)
       case Listing(inst) => inst == cur && !cur.deleting && FINALIZER in cur.finalizers
       case _ => !cur.deleting && FINALIZER in cur.finalizers
  }

  predicate PoolAgrees(p: PoolPass, cur: NodeSet) {
    match p
    case Respecing(_, found) => found == cur.(spec := found.spec)
    case ListingSets(_, found) => found == cur
    case Collecting(_, found, _) => found == cur
    case Mirroring(_, found) => found == cur
    case _ => true
  }

  predicate HasFound(p: PoolPass) {
    p.Respecing? || p.ListingSets? || p.Collecting? || p.Mirroring?
  }

  ghost predicate SetsOk(s: State) {
    forall n | n in s.nodeSets ::
      s.nodeSets[n].rv < s.clock && (s.nodeSets[n].deleting ==> s.nodeSets[n].finalizers != [])
  }

  ghost predicate PassOk(s: State, n: string) {
    n in s.passes ==>
      && s.passes[n].inst.rv < s.clock
      && WellFormed(s.passes[n], s.kubeconfig)
      && (Fresh(s, n, s.passes[n].inst) ==> Agrees(s.passes[n], s.nodeSets[n]))
  }

  ghost predicate PassesOk(s: State) {
    forall n :: PassOk(s, n)
  }

  ghost predicate PoolPassOk(s: State) {
    && s.pool.rv < s.clock
    && (!s.poolPass.PoolIdle? ==>
        && s.poolPass.inst.rv <= s.pool.rv
        && s.poolPass.inst.name == s.pool.name
        && (s.poolPass.inst.rv == s.pool.rv ==> s.poolPass.inst == s.pool))
    && (HasFound(s.poolPass) ==>
        && s.poolPass.found.spec == s.poolPass.inst.spec
        && s.poolPass.found.rv < s.clock
        && var t := Target(s.poolPass.inst);
           Fresh(s, t, s.poolPass.found) ==> PoolAgrees(s.poolPass, s.nodeSets[t]))
    && (s.poolPass.ListingSets? || s.poolPass.Collecting? ==>
        s.poolPass.inst.spec.replicas == Some(|s.poolPass.found.status.nodes|))
  }

  ghost predicate Coherent(s: State) {
    SetsOk(s) && PassesOk(s) && PoolPassOk(s)
  }

  // ---------- Steps of node-set passes ----------

  lemma WriteMovePassOk(s: State, n: string, m: PassMove)
    requires Coherent(s) && Enabled(s, OfSet(n, m)) && (m.PutFinalizers? || m.Record?)
    ensures PassOk(MoveStep(s, n, s.passes[n], m), n)
  {
    assert PassOk(s, n);
  }

  lemma OtherMovePassOk(s: State, n: string, m: PassMove)
    requires Coherent(s) && Enabled(s, OfSet(n, m)) && !(m.Start? || m.PutFinalizers? || m.Record?)
    ensures PassOk(MoveStep(s, n, s.passes[n], m), n)
  {
    assert PassOk(s, n);
  }

  lemma MovePassOk(s: State, n: string, m: PassMove)
    requires Coherent(s) && Enabled(s, OfSet(n, m))
    ensures PassOk(Apply(s, OfSet(n, m)), n)
  {
    if m.Start? {
    } else if m.PutFinalizers? || m.Record? {
      WriteMovePassOk(s, n, m);
    } else {
      OtherMovePassOk(s, n, m);
    }
  }

  /** A copy taken before a write either went stale or still agrees. */
  lemma UntouchedPassOk(s: State, s': State, n: string)
    requires Coherent(s) && OneWrite(s, s')
    requires n in s'.passes ==> n in s.passes && s'.passes[n] == s.passes[n]
    ensures PassOk(s', n)
  {
    assert PassOk(s, n);
  }

  lemma OwnMoveCoherent(s: State, s': State, n: string)
    requires Coherent(s) && OneWrite(s, s') && OnlyOwn(s, s', n) && PassOk(s', n)
    ensures Coherent(s')
  {
    forall m ensures PassOk(s', m) {
      if m != n {
        UntouchedPassOk(s, s', m);
      }
    }
  }

  // ---------- Steps of the pool's pass and of the environment ----------

  lemma RespecPassOk(s: State)
    requires Coherent(s) && PoolEnabled(s, PoolRespec)
    ensures PoolPassOk(PoolStep(s, PoolRespec))
  {}

  lemma CollectPassOk(s: State)
    requires Coherent(s) && PoolEnabled(s, PoolCollect)
    ensures PoolPassOk(PoolStep(s, PoolCollect))
  {}

  lemma OwnPoolPassOk(s: State, m: PoolMove)
    requires Coherent(s) && PoolEnabled(s, m)
    ensures PoolPassOk(PoolStep(s, m))
  {
    if m.PoolRespec? {
      RespecPassOk(s);
    } else if m.PoolCollect? {
      CollectPassOk(s);
    } else {
    }
  }

  lemma OtherMoveCoherent(s: State, s': State)
    requires Coherent(s) && OneWrite(s, s') && NoPassMoves(s, s')
    requires s'.poolPass == s.poolPass || PoolPassOk(s')
    ensures Coherent(s')
  {
    forall m ensures PassOk(s', m) {
      UntouchedPassOk(s, s', m);
    }
  }

  lemma CoherentStep(s: State, a: Action)
    requires Coherent(s) && Enabled(s, a)
    ensures Coherent(Apply(s, a))
  {
    match a
    case Env(e) =>
      EnvShape(s, e);
      OtherMoveCoherent(s, EnvStep(s, e));
    case OfSet(n, m) =>
      MoveShape(s, n, m);
      MovePassOk(s, n, m);
      OwnMoveCoherent(s, Apply(s, a), n);
    case OfPool(m) =>
      PoolShape(s, m);
      OwnPoolPassOk(s, m);
      OtherMoveCoherent(s, PoolStep(s, m));
  }

  lemma {:induction false} CoherentRun(s: State, acts: seq<Action>)
    requires Coherent(s) && Run(s, acts)
    ensures Coherent(After(s, acts))
    decreases |acts|
  {
    if acts != [] {
      var front := acts[..|acts| - 1];
      CoherentRun(s, front);
      CoherentStep(After(s, front), acts[|acts| - 1]);
    }
  }
}
