/** No scale set without a node set that still holds the finalizer. */
module Orphans {
  import opened Types
  import opened Helpers
  import opened Protocol
  import opened Coherence

  ghost predicate Holds(s: State, n: string) {
    n in s.nodeSets && FINALIZER in s.nodeSets[n].finalizers
  }

  /** Every scale set of the cloud belongs to a stored node set that holds the finalizer. */
  ghost predicate NoOrphans(s: State) {
    forall n | n in s.cloud :: Holds(s, n)
  }

  /** A pass between the finalizer write and the finalizer removal: it may still touch the cloud. */
  predicate TouchesCloud(p: Pass) {
    !p.AddingFinalizer? && !p.RemovingFinalizer?
  }

  ghost predicate PassHeld(s: State, n: string) {
    n in s.passes ==>
      && (TouchesCloud(s.passes[n]) ==> Holds(s, n))
      && (s.passes[n].RemovingFinalizer? ==> n !in s.cloud)
  }

  ghost predicate Held(s: State) {
    NoOrphans(s) && forall n :: PassHeld(s, n)
  }

  predicate Drops(a: Action) {
    a.OfSet? && a.move.DropScaleSet? ==> a.move.gone
  }

  lemma WriteMoveHeld(s: State, n: string, m: PassMove)
    requires Coherent(s) && Held(s) && Enabled(s, OfSet(n, m)) && (m.PutFinalizers? || m.Record?)
    ensures var s' := Apply(s, OfSet(n, m)); (n in s'.cloud ==> Holds(s', n)) && PassHeld(s', n)
  {
    assert PassOk(s, n) && PassHeld(s, n);
  }

  lemma OtherMoveHeld(s: State, n: string, m: PassMove)
    requires Coherent(s) && Held(s) && Enabled(s, OfSet(n, m)) && Drops(OfSet(n, m))
    requires !(m.PutFinalizers? || m.Record?)
    ensures var s' := Apply(s, OfSet(n, m)); (n in s'.cloud ==> Holds(s', n)) && PassHeld(s', n)
  {
    assert PassHeld(s, n);
  }

  /** Every stored object that holds the finalizer is still there and holds it. */
  ghost predicate KeepsFinalizers(s: State, s': State) {
    forall n | Holds(s, n) :: Holds(s', n)
  }

  lemma RespecKeepsFinalizers(s: State)
    requires Coherent(s) && PoolEnabled(s, PoolRespec)
    ensures KeepsFinalizers(s, PoolStep(s, PoolRespec))
  {}

  lemma PoolKeepsFinalizers(s: State, m: PoolMove)
    requires Coherent(s) && PoolEnabled(s, m)
    ensures KeepsFinalizers(s, PoolStep(s, m))
  {
    if m.PoolRespec? {
      RespecKeepsFinalizers(s);
    }
  }

  lemma EnvKeepsFinalizers(s: State, e: EnvMove)
    requires Coherent(s) && EnvEnabled(s, e)
    ensures KeepsFinalizers(s, EnvStep(s, e)) && EnvStep(s, e).cloud.Keys <= s.cloud.Keys
  {}

  lemma OtherMovesHeld(s: State, s': State)
    requires Held(s) && KeepsFinalizers(s, s') && NoPassMoves(s, s') && s'.cloud.Keys <= s.cloud.Keys
    ensures Held(s')
  {
    forall n ensures PassHeld(s', n) {
      assert PassHeld(s, n);
    }
  }

  lemma OwnMoveHeld(s: State, s': State, n: string)
    requires Held(s) && OnlyOwn(s, s', n) && (n in s'.cloud ==> Holds(s', n)) && PassHeld(s', n)
    ensures Held(s')
  {
    forall m ensures PassHeld(s', m) {
      assert PassHeld(s, m);
    }
  }

  lemma HeldStep(s: State, a: Action)
    requires Coherent(s) && Held(s) && Enabled(s, a) && Drops(a)
    ensures Held(Apply(s, a))
  {
    match a
    case Env(e) =>
      EnvShape(s, e);
      EnvKeepsFinalizers(s, e);
      OtherMovesHeld(s, EnvStep(s, e));
    case OfSet(n, m) =>
      MoveShape(s, n, m);
      if m.PutFinalizers? || m.Record? {
        WriteMoveHeld(s, n, m);
      } else {
        OtherMoveHeld(s, n, m);
      }
      OwnMoveHeld(s, Apply(s, a), n);
    case OfPool(m) =>
      PoolShape(s, m);
      PoolKeepsFinalizers(s, m);
      OtherMovesHeld(s, PoolStep(s, m));
  }

  lemma {:induction false} HeldRun(s: State, acts: seq<Action>)
    requires Coherent(s) && Held(s) && Run(s, acts) && forall a | a in acts :: Drops(a)
    ensures Coherent(After(s, acts)) && Held(After(s, acts))
    decreases |acts|
  {
    if acts != [] {
      var front := acts[..|acts| - 1];
      HeldRun(s, front);
      assert acts[|acts| - 1] in acts;
      CoherentStep(After(s, front), acts[|acts| - 1]);
      HeldStep(After(s, front), acts[|acts| - 1]);
    }
  }

  /** Whatever users, the cloud and failing calls do, as long as every deletion of a scale set works. */
  lemma NoOrphanScaleSets(s: State, acts: seq<Action>)
    requires Initial(s) && Run(s, acts) && forall a | a in acts :: Drops(a)
    ensures NoOrphans(After(s, acts))
  {
    HeldRun(s, acts);
  }

  /** The deletion's result decides: the pass takes the finalizer off even when the scale set stayed, so from a
      state without orphans the removal leaves an orphan exactly when the deletion failed. */
  lemma OrphanExactlyWhenDropFails(s: State, n: string, gone: bool)
    requires Coherent(s) && Held(s)
    requires n in s.passes && s.passes[n].DroppingScaleSet? && Fresh(s, n, s.passes[n].inst) && n in s.cloud
    ensures var acts := [OfSet(n, DropScaleSet(gone)), OfSet(n, PutFinalizers)];
      Run(s, acts) && (NoOrphans(After(s, acts)) <==> gone)
  {
    var drop, put := OfSet(n, DropScaleSet(gone)), OfSet(n, PutFinalizers);
    RunExtends(s, [], drop);
    assert [] + [drop] == [drop] && [drop] + [put] == [drop, put];
    RunExtends(s, [drop], put);
    var s1 := Apply(s, drop);
    var s2 := Apply(s1, put);
    assert PassOk(s, n);
    RemovedMembers(s.passes[n].inst.finalizers, FINALIZER);
    if gone {
      CoherentStep(s, drop);
      HeldStep(s, drop);
      HeldStep(s1, put);
    } else {
      assert n in s2.cloud && !Holds(s2, n);
    }
  }
}
