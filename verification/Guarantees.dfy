/** What the theorems about runs say of the objects that the reconcilers work on. */
module Guarantees {
  import opened Types
  import opened Protocol
  import opened Coherence
  import opened Services
  import Orphans
  import Success
  import Mirrored
  import Rollout
  import ScaleLoop
  import ControlPlane
  import ControlPlaneController
  import ControlPlaneExactly

  /** However the reconcilers' calls were interleaved with everyone else's, and whichever of them failed: when no call
      that deletes a scale set failed, and none was left out, the cloud holds no scale set without its node set.
      NodeSetController.DeleteNodeSet says that it is left out only for unusable credentials. */
  lemma NoOrphansInTheCloud(w: World)
    requires w.Valid() && Initial(w.start) && w.refused == {} && w.skipped == {}
    ensures forall n | n in w.cloud :: n in w.nodeSets && "nodesets.finalizers.engine.azk.io" in w.nodeSets[n].finalizers
  {
    Orphans.NoOrphanScaleSets(w.start, w.acts);
  }

  /** What a pool shows was, at one time, what the node set that it names had stored. */
  lemma ShownStatusWasStored(w: World)
    requires w.Valid() && Initial(w.start)
    ensures w.pool.status == NodePoolStatus("", 0, 0, "", "")
      || exists i: nat :: Mirrored.StoredThen(w.start, w.acts, i, w.pool.status)
  {
    Mirrored.ShownWasStored(w.start, w.acts);
  }

  /** A pool that shows success got there. */
  lemma ShownSuccessHappened(w: World)
    requires w.Valid() && Initial(w.start) && w.pool.status.state == "Succeeded"
    ensures w.pool.status.vmReplicas == w.pool.status.replicas
    ensures var st := w.pool.status; Success.Proven(w.start, w.acts, st.nodeSetName, st.version, st.vmReplicas)
  {
    Success.ReportedSuccessHappened(w.start, w.acts);
  }

  /** A control plane that shows success has all its listed masters at the shown version, where no pass went to work
      while a command for another version was outstanding. */
  lemma ShownControlPlaneIsUpgraded(w: ControlPlaneController.Plane, bootstrap: string)
    requires w.Valid() && ControlPlane.Bootstrapped(w.start, bootstrap) && bootstrap != ""
    requires ControlPlane.GrantedRun(w.start, w.acts, bootstrap) && w.object'.status.state == "Succeeded"
    ensures forall n | n in w.object'.status.nodes ::
      n in w.masters && w.masters[n].version == w.object'.status.version
  {
    ControlPlane.SucceededIsHonest(w.start, w.acts, bootstrap);
  }

  /** From a trustworthy start the code shows success only truthfully, whatever fails and is retried, until the version
      is changed; ControlPlaneExactly.HonestUntilChangeExactly says that from any other start it may not. */
  lemma HonestUntilChangeByTheCode(w: ControlPlaneController.Plane)
    requires w.Valid() && w.start.pass.None? && ControlPlaneExactly.Trustworthy(w.start)
    requires ControlPlaneExactly.Unchanged(w.acts) && w.object'.status.state == "Succeeded"
    ensures forall n | n in w.object'.status.nodes ::
      n in w.masters && w.masters[n].version == w.object'.status.version
  {
    ControlPlaneExactly.HonestUntilChangeExactly(w.start);
    assert ControlPlane.Honest(ControlPlane.After(w.start, w.acts));
  }

  /** The state after the first `since` calls. */
  ghost function Then(w: World, since: nat): State
    requires w.Valid() && since <= |w.acts|
    reads w
  {
    RunPrefix(w.start, w.acts, since);
    After(w.start, w.acts[..since])
  }

  lemma FromThen(w: World, since: nat)
    requires w.Valid() && since <= |w.acts|
    ensures Run(Then(w, since), w.acts[since..]) && After(Then(w, since), w.acts[since..]) == w.Here()
    ensures Coherent(Then(w, since))
  {
    RunPrefix(w.start, w.acts, since);
    RunConcat(w.start, w.acts[..since], w.acts[since..]);
    assert w.acts[..since] + w.acts[since..] == w.acts;
    CoherentRun(w.start, w.acts[..since]);
  }

  /** A rollout that began after `since` calls, to a version without a node set, found no harmful pass of the pool and
      was left alone by users: the code is about to delete a node set only when the target was seen ready. */
  lemma NoEarlyDeletionByTheCode(w: World, since: nat, m: string)
    requires w.Valid() && since <= |w.acts|
    requires var begun := Then(w, since);
      && Rollout.Begins(begun) && Rollout.Harmless(begun, Target(begun.pool), begun.pool.spec)
      && begun.pool.spec.replicas != Some(0) && Rollout.AllSpare(w.acts[since..], Target(begun.pool))
    requires Rollout.Discards(w.Here(), m)
    ensures var begun := Then(w, since);
      Rollout.EverReady(w.acts[since..], Target(begun.pool), begun.pool.spec)
  {
    FromThen(w, since);
    Rollout.BeginsQuietly(Then(w, since));
    Rollout.NoEarlyDeletion(Then(w, since), w.acts[since..], m);
  }

  /** A scale-down that began after `since` calls has drained and deleted a prefix of what it has to, in order. */
  lemma ScaleDownByTheCode(w: World, since: nat, n: string, inst: NodeSet)
    requires w.Valid() && since <= |w.acts| && inst.spec.replicas.Some?
    requires n in Then(w, since).passes && Then(w, since).passes[n] == Scaling(inst, Kept(inst), false)
    requires forall a | a in w.acts[since..] :: !ScaleLoop.Restarts(a, n)
    ensures var later := w.acts[since..];
      ScaleLoop.Stopped(ScaleLoop.Calls(later, n), inst, ScaleLoop.Resized(later, n))
  {
    FromThen(w, since);
    ScaleLoop.ScaleLoopIsExact(Then(w, since), w.acts[since..], n, inst);
  }

  /** The masters that the code upgrades with a fixed target stand in a frontier. */
  lemma UpgradeFrontierByTheCode(w: ControlPlaneController.Plane, list: seq<string>)
    requires w.Valid() && w.start.pass.None? && ControlPlane.Distinct(list)
    requires forall n | n in w.start.masters :: w.start.masters[n].pending <= {w.start.object'.version}
    requires forall a | a in w.acts :: ControlPlane.FixedTarget(a, list)
    ensures ControlPlane.Frontier(w.Here(), w.acts, list, w.start.object'.version)
  {
    ControlPlane.FrontierKept(w.start, w.acts, list);
  }
}
