/** The NodePool reconciler, call by call. Every method keeps the run of the world a run of the protocol. */
module NodePoolController {
  import opened Types
  import opened Naming
  import opened Protocol
  import opened Services
  import opened NodeSetController

  /** Every other object than `kept` is gone or marked for deletion. */
  ghost predicate OthersDiscarded(before: map<string, NodeSet>, after: map<string, NodeSet>, kept: string) {
    forall m | m in before && m != kept :: m !in after || after[m].deleting
  }

  /** Where the collecting loop stands when nobody else acts. */
  ghost predicate HalfCollected(before: map<string, NodeSet>, now: map<string, NodeSet>, items: seq<string>, i: nat,
                                kept: string)
    requires i <= |items|
  {
    && (forall m | m in before :: m in items)
    && (forall k | 0 <= k < i && items[k] != kept :: items[k] !in now || now[items[k]].deleting)
    && (forall k | i <= k < |items| :: items[k] in now)
    && (kept in before ==> kept in now && now[kept] == before[kept])
  }

  /** The turn of one listed node set: stepped over when it is the pass's own, otherwise deleted. */
  method CollectOne(w: World, instance: NodePool, found: NodeSet, nodeSetName: string, ghost before: map<string, NodeSet>,
                    items: seq<string>, i: nat)
      returns (ok: bool)
    requires w.Valid() && i < |items| && w.poolPass == Collecting(instance, found, items[i..])
    requires nodeSetName == Target(instance) && forall j, k | 0 <= j < k < |items| :: items[j] != items[k]
    requires w.calm ==> HalfCollected(before, w.nodeSets, items, i, nodeSetName)
    modifies w
    ensures w.Valid() && old(w.acts) <= w.acts
    ensures if ok then w.poolPass == Collecting(instance, found, items[i + 1..]) else w.poolPass.PoolIdle?
    ensures if ok then w.PoolFate() == old(w.PoolFate()) else w.PoolFate().HeldUp? && !w.calm
    ensures w.calm ==> w.pool == old(w.pool) && HalfCollected(before, w.nodeSets, items, i + 1, nodeSetName)
  {
    assert items[i..][1..] == items[i + 1..];
    ok := true;
    if items[i] == nodeSetName {
      w.Advance(instance, found, items[i..]);
    } else {
      w.Interleave(PoolActor);
      ok := w.DeleteNodeSet(instance, found, items[i..], items[i]);
    }
  }

  /** Deletes every node set but the pass's own; stops at the first failing call. */
  method PerformGarbageCollection(w: World, instance: NodePool, found: NodeSet, nodeSetName: string)
      returns (ok: bool)
    requires w.Valid() && w.poolPass == ListingSets(instance, found) && nodeSetName == Target(instance)
    modifies w
    ensures w.Valid() && old(w.acts) <= w.acts
    ensures if ok then w.poolPass == Mirroring(instance, found) else w.poolPass.PoolIdle?
    ensures if ok then w.PoolFate() == old(w.PoolFate()) else w.PoolFate().HeldUp? && !w.calm
    ensures w.calm ==> w.pool == old(w.pool) && OthersDiscarded(old(w.nodeSets), w.nodeSets, nodeSetName)
    ensures w.calm && nodeSetName in old(w.nodeSets) ==>
      nodeSetName in w.nodeSets && w.nodeSets[nodeSetName] == old(w.nodeSets)[nodeSetName]
  {
    w.Interleave(PoolActor);
    var items;
    ok, items := w.ListNodeSets(instance, found);
    if !ok {
      return;
    }
    for i := 0 to |items|
      invariant w.Valid() && old(w.acts) <= w.acts && w.PoolFate() == old(w.PoolFate())
      invariant w.poolPass == Collecting(instance, found, items[i..])
      invariant w.calm ==> w.pool == old(w.pool) && HalfCollected(old(w.nodeSets), w.nodeSets, items, i, nodeSetName)
    {
      ok := CollectOne(w, instance, found, nodeSetName, old(w.nodeSets), items, i);
      if !ok {
        return;
      }
    }
    w.Advance(instance, found, items[|items|..]);
  }

  /** The pool shows, under that name, what a node set of this status has. */
  ghost predicate Shows(w: World, name: string, st: NodeSetStatus)
    reads w
  {
    && LastIs(w.acts, OfPool(PoolMirror)) && w.pool.status.nodeSetName == name
    && w.pool.status.vmReplicas == |st.nodes| && w.pool.status.replicas == st.replicas
    && w.pool.status.version == st.version && w.pool.status.state == st.state
  }

  /** What settling does to the node sets when nobody else acts. */
  ghost predicate Settled(before: map<string, NodeSet>, after: map<string, NodeSet>, name: string,
                          replicas: Option<int>) {
    name in before &&
    if replicas == Some(|before[name].status.nodes|) then
      name in after && after[name] == before[name] && OthersDiscarded(before, after, name)
    else after == before
  }

  /** Collects the other node sets when the target lists as many machines as wanted, then mirrors its status. */
  method Settle(w: World, instance: NodePool, foundNodeSet: NodeSet, nodeSetName: string) returns (r: Outcome)
    requires w.Valid() && w.poolPass == AfterFound(instance, foundNodeSet) && nodeSetName == Target(instance)
    requires w.PoolFate() == Well
    requires w.calm ==>
      w.pool.rv == instance.rv && nodeSetName in w.nodeSets && w.nodeSets[nodeSetName] == foundNodeSet
    modifies w
    ensures w.Valid() && w.poolPass.PoolIdle? && old(w.acts) <= w.acts
    ensures !r.requeue && w.PoolFate() == (if r.failed then HeldUp else Well) && (w.calm ==> !r.failed)
    ensures !r.failed ==>
      && LastIs(w.acts, OfPool(PoolMirror)) && w.pool.status.nodeSetName == nodeSetName
      && w.pool.status.vmReplicas == |foundNodeSet.status.nodes|
      && w.pool.status.replicas == foundNodeSet.status.replicas
      && w.pool.status.version == foundNodeSet.status.version
      && w.pool.status.state == foundNodeSet.status.state
    ensures w.calm ==> Settled(old(w.nodeSets), w.nodeSets, nodeSetName, instance.spec.replicas)
  {
    if instance.spec.replicas.Some? && |foundNodeSet.status.nodes| == instance.spec.replicas.value {
      w.Interleave(PoolActor);
      var ok := PerformGarbageCollection(w, instance, foundNodeSet, nodeSetName);
      if !ok {
        return Outcome(false, true);
      }
    }
    var status := NodePoolStatus(
      nodeSetName, |foundNodeSet.status.nodes|, foundNodeSet.status.replicas,
      foundNodeSet.status.version, foundNodeSet.status.state);
    w.Interleave(PoolActor);
    var ok := w.UpdatePoolStatus(instance, foundNodeSet, status);
    return Outcome(false, !ok);
  }

  /** Writes the pool's spec to the target, then settles. */
  method Respec(w: World, instance: NodePool, found: NodeSet, nodeSetName: string) returns (r: Outcome)
    requires w.Valid() && nodeSetName == Target(instance) && w.poolPass == Respecing(instance, found)
    requires w.PoolFate() == Well && found.spec == instance.spec
    requires w.calm ==>
      w.pool.rv == instance.rv && nodeSetName in w.nodeSets && w.nodeSets[nodeSetName].(spec := found.spec) == found
    modifies w
    ensures w.Valid() && w.poolPass.PoolIdle? && old(w.acts) <= w.acts
    ensures !r.requeue && w.PoolFate() == (if r.failed then HeldUp else Well) && (w.calm ==> !r.failed)
    ensures !r.failed ==> exists st :: Shows(w, nodeSetName, st) && (w.calm ==> st == found.status)
    ensures w.calm ==> Aligned(old(w.nodeSets), w.nodeSets, nodeSetName, instance.spec)
  {
    w.Interleave(PoolActor);
    var stored := w.UpdateSpec(instance, nodeSetName, found);
    if stored.None? {
      return Outcome(false, true);
    }
    r := Settle(w, instance, stored.value, nodeSetName);
    assert !r.failed ==> Shows(w, nodeSetName, stored.value.status);
  }

  /** Settled, with the target on the pool's spec. */
  ghost predicate Aligned(before: map<string, NodeSet>, after: map<string, NodeSet>, name: string, spec: NodeSetSpec) {
    && name in before && name in after && after[name].spec == spec && after[name].status == before[name].status
    && (if spec.replicas == Some(|before[name].status.nodes|) then OthersDiscarded(before, after, name)
        else after == before[name := after[name]])
  }

  /** Brings the target to the pool's spec if it differs, then settles. */
  method Align(w: World, instance: NodePool, found: NodeSet, nodeSetName: string) returns (r: Outcome)
    requires w.Valid() && nodeSetName == Target(instance) && w.PoolFate() == Well
    requires w.calm ==> w.pool.rv == instance.rv && nodeSetName in w.nodeSets && w.nodeSets[nodeSetName] == found
    requires w.poolPass ==
      if found.spec != instance.spec then Respecing(instance, found.(spec := instance.spec))
      else AfterFound(instance, found)
    modifies w
    ensures w.Valid() && w.poolPass.PoolIdle? && old(w.acts) <= w.acts
    ensures !r.requeue && w.PoolFate() == (if r.failed then HeldUp else Well) && (w.calm ==> !r.failed)
    ensures !r.failed ==> exists st :: Shows(w, nodeSetName, st) && (w.calm ==> st == found.status)
    ensures w.calm ==> Aligned(old(w.nodeSets), w.nodeSets, nodeSetName, instance.spec)
  {
    if instance.spec != found.spec {
      r := Respec(w, instance, found.(spec := instance.spec), nodeSetName);
    } else {
      r := Settle(w, instance, found, nodeSetName);
      assert !r.failed ==> Shows(w, nodeSetName, found.status);
    }
  }

  /** Creates the target. */
  method Introduce(w: World, instance: NodePool, nodeSetName: string) returns (r: Outcome)
    requires w.Valid() && w.poolPass == CreatingSet(instance) && nodeSetName == Target(instance)
    requires w.PoolFate() == Well && (w.calm ==> nodeSetName !in w.nodeSets)
    modifies w
    ensures w.Valid() && w.poolPass.PoolIdle? && old(w.acts) <= w.acts
    ensures w.PoolFate() == (if r.failed then HeldUp else Well) && r.requeue == !r.failed && (w.calm ==> !r.failed)
    ensures !r.failed ==> Introduced(w, nodeSetName, instance.spec)
    ensures w.calm ==> w.nodeSets == old(w.nodeSets)[nodeSetName := w.nodeSets[nodeSetName]]
  {
    w.Interleave(PoolActor);
    var ok := w.CreateNodeSet(instance, nodeSetName, instance.spec);
    return Outcome(ok, !ok);
  }

  /** The last call created the target, on that spec and without a status. */
  ghost predicate Introduced(w: World, name: string, spec: NodeSetSpec)
    reads w
  {
    && LastIs(w.acts, OfPool(PoolCreate)) && name in w.nodeSets && w.nodeSets[name].spec == spec
    && w.nodeSets[name].status == NodeSetStatus(0, "", "", "", [])
  }

  /** One pass over the pool. It ends idle, and its calls form a legal run with anyone else's. Unless a call fails, it
      created the target and wants another try, or the pool shows the status that the target had. */
  method Reconcile(w: World) returns (r: Outcome)
    requires w.Valid() && w.poolPass.PoolIdle?
    modifies w
    ensures w.Valid() && w.poolPass.PoolIdle? && old(w.acts) < w.acts
    ensures w.PoolFate() == (if r.failed then HeldUp else Well) && (r.failed ==> !r.requeue && !w.calm)
    ensures !r.failed ==>
      var t := NodeSetName(old(w.pool.name), old(w.pool.spec.version));
      if r.requeue then Introduced(w, t, old(w.pool.spec))
      else exists st: NodeSetStatus ::
        && LastIs(w.acts, OfPool(PoolMirror)) && w.pool.status.nodeSetName == t
        && w.pool.status.vmReplicas == |st.nodes| && w.pool.status.replicas == st.replicas
        && w.pool.status.version == st.version && w.pool.status.state == st.state
        && (w.calm ==> t in old(w.nodeSets) && st == old(w.nodeSets)[t].status)
    // When nobody else acts, this is what becomes of the node sets.
    ensures w.calm ==>
      var t := NodeSetName(old(w.pool.name), old(w.pool.spec.version));
      if t in old(w.nodeSets) then !r.requeue && Aligned(old(w.nodeSets), w.nodeSets, t, old(w.pool.spec))
      else r.requeue && w.nodeSets == old(w.nodeSets)[t := w.nodeSets[t]]
  {
    var instance := w.GetPool();
    var nodeSetName := NodeSetName(instance.name, instance.spec.version);
    w.Interleave(PoolActor);
    var found := w.GetTarget(instance, nodeSetName);
    if found.Err? {
      r := Outcome(false, true);
    } else if found.value.None? {
      r := Introduce(w, instance, nodeSetName);
    } else {
      r := Align(w, instance, found.value.value, nodeSetName);
    }
  }
}
