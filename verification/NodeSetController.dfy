/** The NodeSet reconciler, call by call. Every method keeps the run of the world a run of the protocol. */
module NodeSetController {
  import opened Types
  import opened Helpers
  import opened Protocol
  import opened Services

  /** The controller's answer to its queue: try again, and whether with an error. */
  datatype Outcome = Outcome(requeue: bool, failed: bool)

  /** Some wait for nodes of `n` ended well after the first `from` actions. */
  ghost predicate SawNodes(acts: seq<Action>, from: nat, n: string) {
    exists i | from <= i < |acts| :: acts[i].OfSet? && acts[i].set' == n && acts[i].move.NodesReady?
  }

  /** The pass of `n` found its scale set gone when it dropped it, after the first `from` actions. */
  ghost predicate SawItGone(acts: seq<Action>, from: nat, n: string) {
    exists i | from <= i < |acts| :: acts[i] == OfSet(n, DropScaleSet(true))
  }

  ghost predicate LastIs(acts: seq<Action>, a: Action) {
    acts != [] && acts[|acts| - 1] == a
  }

  /** A pass can only end in a panic on a nil replica count, on a missing discovery hash, or on a nil field in what the
      cloud answered. */
  ghost predicate Explains(cause: Panic, calm: bool, replicas: Option<int>, hashes: seq<string>) {
    match cause
    case NilCount => replicas.None?
    case NoHash => hashes == []
    case NilField => !calm
  }

  /** The answer goes with how the pass fared: an error when a failing call held it up, silence after a panic, and
      otherwise another try, with a startup script that has a discovery hash. */
  ghost predicate Answers(r: Outcome, fate: Fate, calm: bool, replicas: Option<int>, hashes: seq<string>) {
    match fate
    case Well => r == Outcome(true, false) && hashes != []
    case HeldUp => r.failed && !calm
    case InPanic(cause) => r == Outcome(false, false) && Explains(cause, calm, replicas, hashes)
  }

  /** Copies the machines that the cloud lists into the status. */
  method UpdateNodeSet(w: World, n: string, instance: NodeSet) returns (answer: Answer, listed: NodeSet)
    requires w.Valid() && w.Stands(n, Listing(instance))
    modifies w
    ensures w.Valid() && old(w.acts) <= w.acts
    ensures w.calm ==> w.nodeSets == old(w.nodeSets) && w.cloud == old(w.cloud)
    ensures w.calm ==> answer == if n in w.cloud then Works else Fails
    ensures answer.Works? ==>
      && n in w.cloud && listed == instance.(status := instance.status.(nodes := w.cloud[n].vms))
      && LastIs(w.acts, OfSet(n, ListVMs(true)))
      && match AfterList(listed) {
        case Some(p) => w.Stands(n, p)
        case None => n !in w.passes && w.FateOf(n) == InPanic(NilCount)
      }
    ensures answer.Fails? ==>
      w.Stands(n, Recording(instance.(status := instance.status.(state := "Updating")), ThenCreate))
    ensures answer.Panics? ==> n !in w.passes && w.FateOf(n) == InPanic(NilField) && !w.calm
    ensures answer.Fails? || (answer.Works? && instance.spec.replicas.Some?) ==>
      w.AccountOf(SetActor(n)) == old(w.AccountOf(SetActor(n)))
  {
    w.Interleave(SetActor(n));
    var vms;
    answer, vms := w.ListMachines(n, instance);
    if !answer.Works? {
      return answer, instance;
    }
    var vmStatus := [];
    for i := 0 to |vms|
      invariant vmStatus == vms[..i]
    {
      var status := VMStatus(vms[i].computerName, vms[i].instanceID);
      vmStatus := vmStatus + [status];
    }
    assert vms[..|vms|] == vms;
    listed := instance.(status := instance.status.(nodes := vmStatus));
  }

  /** Drains a machine of a scaling; a failure ends the pass. */
  method DrainMachine(w: World, n: string, instance: NodeSet, k: nat) returns (ok: bool)
    requires w.Valid() && w.Stands(n, Scaling(instance, k, false)) && k < |instance.status.nodes|
    modifies w
    ensures w.Valid() && old(w.acts) <= w.acts
    ensures if ok then w.Stands(n, Scaling(instance, k, true)) else n !in w.passes && w.FateOf(n).HeldUp? && !w.calm
    ensures w.calm ==> w.cloud == old(w.cloud)
    ensures ok ==> Drained(old(w.AccountOf(SetActor(n))), w.AccountOf(SetActor(n)), [instance.status.nodes[k]])
  {
    w.Interleave(SetActor(n));
    ok := w.DrainNode(n, instance.status.nodes[k]);
    if !ok {
      w.GiveUp(n);
    }
  }

  /** These machines, and no others, had their drain call in between. */
  ghost predicate Drained(before: Account, after: Account, machines: seq<VMStatus>) {
    after == before.(drains := before.drains + machines)
  }

  /** Drains one machine and deletes it. */
  method RemoveMachine(w: World, n: string, instance: NodeSet, k: nat) returns (ok: bool)
    requires w.Valid() && w.Stands(n, Scaling(instance, k, false)) && k < |instance.status.nodes|
    requires w.calm ==> n in w.cloud
    modifies w
    ensures w.Valid() && old(w.acts) <= w.acts
    ensures if ok then w.Stands(n, Scaling(instance, k + 1, false))
      else n !in w.passes && w.FateOf(n).HeldUp? && !w.calm
    ensures ok ==> Drained(old(w.AccountOf(SetActor(n))), w.AccountOf(SetActor(n)), [instance.status.nodes[k]])
    ensures ok ==> n in w.cloud && LastIs(w.acts, OfSet(n, DeleteVM(instance.status.nodes[k], w.cloud[n])))
  {
    ok := DrainMachine(w, n, instance, k);
    if ok {
      w.Interleave(SetActor(n));
      ok := w.DeleteInstance(n, instance.status.nodes[k]);
    }
  }

  /** The machines behind the first `count`. */
  function Behind(nodes: seq<VMStatus>, count: int): (rest: seq<VMStatus>)
    ensures 0 <= count <= |nodes| ==> nodes[..count] + rest == nodes
    ensures count <= 0 ==> rest == nodes
    ensures |nodes| <= count ==> rest == []
  {
    if count <= 0 then nodes else if count >= |nodes| then [] else nodes[count..]
  }

  lemma BehindMore(nodes: seq<VMStatus>, count: int, i: nat)
    requires i < |nodes|
    ensures Behind(nodes[..i + 1], count) == Behind(nodes[..i], count) + if i < count then [] else [nodes[i]]
  {
    var more := nodes[..i + 1];
    assert more == nodes[..i] + [nodes[i]];
    if 0 < count <= i {
      assert more[count..] == nodes[..i][count..] + [nodes[i]];
    }
  }

  lemma DrainedMore(before: Account, now: Account, after: Account, some: seq<VMStatus>, one: VMStatus)
    requires Drained(before, now, some) && Drained(now, after, [one])
    ensures Drained(before, after, some + [one])
  {}

  /** Drains and deletes the machines behind the first `Replicas`, then sets the capacity. */
  method ScaleNodeSet(w: World, n: string, instance: NodeSet, hashes: seq<string>) returns (answer: Answer)
    requires w.Valid() && instance.spec.replicas.Some? && w.Stands(n, Scaling(instance, Kept(instance), false))
    requires w.calm ==> n in w.cloud
    modifies w
    ensures w.Valid() && n !in w.passes && old(w.acts) <= w.acts
    ensures answer.Works? ==>
      && hashes != [] && n in w.cloud && w.cloud[n].capacity == instance.spec.replicas.value
      && LastIs(w.acts, OfSet(n, Resize(w.cloud[n])))
      && Drained(old(w.AccountOf(SetActor(n))), w.AccountOf(SetActor(n)),
                 Behind(instance.status.nodes, instance.spec.replicas.value))
    ensures answer.Fails? ==> w.FateOf(n).HeldUp? && !w.calm
    ensures answer.Panics? ==>
      (w.FateOf(n) == InPanic(NilField) && !w.calm) || (w.FateOf(n) == InPanic(NoHash) && hashes == [])
  {
    var expectedCount := instance.spec.replicas.value;
    var nodes := instance.status.nodes;
    var curCount := 0;
    for i := 0 to |nodes|
      invariant w.Valid() && old(w.acts) <= w.acts && (w.calm ==> n in w.cloud)
      invariant curCount == if i <= Kept(instance) then i else Kept(instance)
      invariant w.Stands(n, Scaling(instance, if i <= Kept(instance) then Kept(instance) else i, false))
      invariant Drained(old(w.AccountOf(SetActor(n))), w.AccountOf(SetActor(n)), Behind(nodes[..i], expectedCount))
    {
      BehindMore(nodes, expectedCount, i);
      if curCount < expectedCount {
        curCount := curCount + 1;
        continue;
      }
      ghost var now := w.AccountOf(SetActor(n));
      var removed := RemoveMachine(w, n, instance, i);
      if !removed {
        return Fails;
      }
      DrainedMore(old(w.AccountOf(SetActor(n))), now, w.AccountOf(SetActor(n)), Behind(nodes[..i], expectedCount), nodes[i]);
    }
    assert nodes[..|nodes|] == nodes;
    answer := CloseScaling(w, n, instance, hashes);
  }

  /** The last part of a scaling: the rendered data, and the capacity. */
  method CloseScaling(w: World, n: string, instance: NodeSet, hashes: seq<string>) returns (answer: Answer)
    requires w.Valid() && instance.spec.replicas.Some?
    requires w.Stands(n, Scaling(instance, |instance.status.nodes|, false)) && (w.calm ==> n in w.cloud)
    modifies w
    ensures w.Valid() && n !in w.passes && old(w.acts) <= w.acts
    ensures answer.Works? ==>
      && hashes != [] && n in w.cloud && w.cloud[n].capacity == instance.spec.replicas.value
      && LastIs(w.acts, OfSet(n, Resize(w.cloud[n])))
      && w.AccountOf(SetActor(n)) == old(w.AccountOf(SetActor(n)))
    ensures answer.Fails? ==> w.FateOf(n).HeldUp? && !w.calm
    ensures answer.Panics? ==>
      (w.FateOf(n) == InPanic(NilField) && !w.calm) || (w.FateOf(n) == InPanic(NoHash) && hashes == [])
  {
    answer := w.Render(n, hashes);
    if answer.Fails? {
      w.GiveUp(n);
    }
    if answer.Works? {
      w.Interleave(SetActor(n));
      answer := w.ScaleVMSS(n, instance.spec.replicas.value);
    }
  }

  /** Every machine had its drain call, worked or not, and then the scale set was deleted, or a delete call for it
      failed. Without usable credentials nothing of that happened. */
  ghost predicate Dismantled(before: Account, after: Account, acts: seq<Action>, from: nat, refused: set<string>,
                             calm: bool, n: string, machines: seq<VMStatus>, credentials: bool) {
    if credentials then
      && after.drains == before.drains + machines
      && ((after.drop.Deleted? && SawItGone(acts, from, n)) || (after.drop.DeleteFailed? && n in refused && !calm))
    else after.drains == before.drains && after.drop.Skipped?
  }

  /** Calls a drain for every machine, whatever comes of it. */
  method DrainAll(w: World, n: string, instance: NodeSet)
    requires w.Valid() && w.Stands(n, DroppingScaleSet(instance))
    modifies w
    ensures w.Valid() && old(w.acts) <= w.acts && w.Stands(n, DroppingScaleSet(instance))
    ensures w.calm ==> w.nodeSets == old(w.nodeSets)
    ensures Drained(old(w.AccountOf(SetActor(n))), w.AccountOf(SetActor(n)), instance.status.nodes)
  {
    var nodes := instance.status.nodes;
    for i := 0 to |nodes|
      invariant w.Valid() && old(w.acts) <= w.acts && w.Stands(n, DroppingScaleSet(instance))
      invariant w.calm ==> w.nodeSets == old(w.nodeSets)
      invariant Drained(old(w.AccountOf(SetActor(n))), w.AccountOf(SetActor(n)), nodes[..i])
    {
      w.Interleave(SetActor(n));
      assert nodes[i] in instance.status.nodes;
      var _ := w.DrainNode(n, nodes[i]);
    }
    assert nodes[..|nodes|] == nodes;
  }

  /** Drains every machine and deletes the scale set, unless the credentials are unusable. */
  method DeleteNodeSet(w: World, n: string, instance: NodeSet, credentials: bool)
    requires w.Valid() && w.Stands(n, DroppingScaleSet(instance))
    modifies w
    ensures w.Valid() && old(w.acts) < w.acts && w.FateOf(n) == old(w.FateOf(n))
    ensures w.calm ==> w.nodeSets == old(w.nodeSets)
    ensures w.Stands(n, RemovingFinalizer(instance.(finalizers := Removed(instance.finalizers, FINALIZER))))
    ensures Dismantled(old(w.AccountOf(SetActor(n))), w.AccountOf(SetActor(n)), w.acts, |old(w.acts)|, w.refused,
                       w.calm, n, instance.status.nodes, credentials)
  {
    if credentials {
      DrainAll(w, n, instance);
      w.Interleave(SetActor(n));
      var deleted := w.DeleteVMSS(n);
      assert deleted ==> w.acts[|w.acts| - 1] == OfSet(n, DropScaleSet(true));
    } else {
      w.SkipVMSS(n);
    }
  }

  /** The listing failed: record it and create the scale set, or bring it to its count. */
  method Provision(w: World, n: string, listed: NodeSet, hashes: seq<string>) returns (r: Outcome)
    requires w.Valid() && w.FateOf(n) == Well
    requires w.Stands(n, Recording(listed.(status := listed.status.(state := "Updating")), ThenCreate))
    requires w.calm ==> Fresh(w.Here(), n, listed)
    modifies w
    ensures w.Valid() && n !in w.passes && old(w.acts) <= w.acts
    ensures Answers(r, w.FateOf(n), w.calm, listed.spec.replicas, hashes)
    ensures w.FateOf(n) == Well ==> Created(w, n, listed.spec.replicas)
  {
    var instance := listed.(status := listed.status.(state := UPDATING));
    w.Interleave(SetActor(n));
    var stored := w.UpdateStatus(n, instance, ThenCreate);
    if stored.None? {
      return Outcome(false, true);
    }
    r := Create(w, n, stored.value, hashes);
  }

  /** The last call made the scale set, at the wanted count. */
  ghost predicate Created(w: World, n: string, replicas: Option<int>)
    reads w
  {
    n in w.cloud && replicas == Some(w.cloud[n].capacity) && LastIs(w.acts, OfSet(n, CreateScaleSet(w.cloud[n])))
  }

  /** The last call brought the scale set to the wanted count. */
  ghost predicate Scaled(w: World, n: string, replicas: Option<int>)
    reads w
  {
    n in w.cloud && replicas == Some(w.cloud[n].capacity) && LastIs(w.acts, OfSet(n, Resize(w.cloud[n])))
  }

  /** The creation behind that record. */
  method Create(w: World, n: string, instance: NodeSet, hashes: seq<string>) returns (r: Outcome)
    requires w.Valid() && w.Stands(n, Creating(instance)) && w.FateOf(n) == Well
    modifies w
    ensures w.Valid() && n !in w.passes && old(w.acts) <= w.acts
    ensures Answers(r, w.FateOf(n), w.calm, instance.spec.replicas, hashes)
    ensures w.FateOf(n) == Well ==> Created(w, n, instance.spec.replicas)
  {
    var rendered := w.Render(n, hashes);
    if rendered.Panics? {
      return Outcome(false, false);
    }
    if rendered.Fails? {
      w.GiveUp(n);
      return Outcome(true, true);
    }
    if instance.spec.replicas.None? {
      w.PanicOnCount(n);
      return Outcome(false, false);
    }
    w.Interleave(SetActor(n));
    var created := w.CreateVMSS(n, instance.spec.replicas.value);
    return Outcome(created, !created);
  }

  /** The listing shows another number of machines than wanted: record it and scale. */
  method Scale(w: World, n: string, listed: NodeSet, hashes: seq<string>) returns (r: Outcome)
    requires w.Valid() && w.FateOf(n) == Well && listed.spec.replicas.Some?
    requires w.Stands(n, Recording(listed.(status := listed.status.(state := "Scaling")), ThenScale))
    requires w.calm ==> Fresh(w.Here(), n, listed) && n in w.cloud
    modifies w
    ensures w.Valid() && n !in w.passes && old(w.acts) <= w.acts
    ensures Answers(r, w.FateOf(n), w.calm, listed.spec.replicas, hashes)
    ensures w.FateOf(n) == Well ==>
      && Scaled(w, n, listed.spec.replicas)
      && Drained(old(w.AccountOf(SetActor(n))), w.AccountOf(SetActor(n)),
                 Behind(listed.status.nodes, listed.spec.replicas.value))
  {
    var instance := listed.(status := listed.status.(state := SCALING));
    w.Interleave(SetActor(n));
    var stored := w.UpdateStatus(n, instance, ThenScale);
    if stored.None? {
      return Outcome(false, true);
    }
    instance := stored.value;
    var scaled := ScaleNodeSet(w, n, instance, hashes);
    return Outcome(scaled.Works?, scaled.Fails?);
  }

  /** The stored status is that of success with the listed machines, on the listed spec. */
  ghost predicate ShowsSuccess(w: World, n: string, listed: NodeSet)
    reads w
  {
    && LastIs(w.acts, OfSet(n, Record)) && n in w.nodeSets && w.nodeSets[n].spec == listed.spec
    && var st := w.nodeSets[n].status;
      && st.nodes == listed.status.nodes && st.replicas == |listed.status.nodes|
      && st.version == listed.spec.version && st.state == "Succeeded" && st.kubeconfig == w.kubeconfig
  }

  /** The last call recorded that success, behind a wait for as many nodes. */
  ghost predicate Confirmed(w: World, from: nat, n: string, listed: NodeSet)
    reads w
  {
    ShowsSuccess(w, n, listed) && SawNodes(w.acts, from, n)
  }

  /** Records success. */
  method RecordSuccess(w: World, n: string, listed: NodeSet) returns (r: Outcome)
    requires w.Valid() && w.Stands(n, Recording(Succeeded(listed, w.kubeconfig), ThenDone))
    requires w.FateOf(n) == Well && (w.calm ==> Fresh(w.Here(), n, listed))
    modifies w
    ensures w.Valid() && n !in w.passes && old(w.acts) <= w.acts
    ensures w.FateOf(n) == if r.failed then HeldUp else Well
    ensures w.calm ==> !r.failed
    ensures !r.failed ==> !r.requeue && ShowsSuccess(w, n, listed)
  {
    var instance := listed.(status := listed.status.(
      version := listed.spec.version, state := SUCCEEDED, kubeconfig := w.kubeconfig,
      replicas := |listed.status.nodes|));
    w.Interleave(SetActor(n));
    var stored := w.UpdateStatus(n, instance, ThenDone);
    return Outcome(false, stored.None?);
  }

  /** The listing shows the wanted number: wait for the nodes and record success. */
  method Confirm(w: World, n: string, listed: NodeSet, lists: nat -> Result<seq<Node>>) returns (r: Outcome)
    requires w.Valid() && w.FateOf(n) == Well && listed.spec.replicas.Some? && w.Stands(n, Awaiting(listed))
    requires w.calm ==> Fresh(w.Here(), n, listed)
    modifies w
    ensures w.Valid() && n !in w.passes && old(w.acts) < w.acts
    ensures w.FateOf(n) == if r.failed then HeldUp else Well
    ensures w.calm ==> (r.failed <==> !EnoughInTime(lists, n, listed.spec.replicas.value))
    ensures !r.failed ==> !r.requeue && Confirmed(w, |old(w.acts)|, n, listed)
  {
    w.Interleave(SetActor(n));
    var err := w.WaitNodes(n, listed.spec.replicas.value, lists);
    if err.Some? {
      return Outcome(true, true);
    }
    ghost var seen := |w.acts| - 1;
    r := RecordSuccess(w, n, listed);
    assert w.acts[seen].OfSet? && w.acts[seen].set' == n && w.acts[seen].move.NodesReady?;
  }

  /** A pass on an object that is marked for deletion and holds the finalizer: when it ends well, the object is gone or
      does not hold the finalizer any more. */
  method FinishDeletion(w: World, n: string, found: NodeSet, credentials: bool) returns (r: Outcome)
    requires w.Valid() && w.Stands(n, DroppingScaleSet(found)) && w.FateOf(n) == Well
    requires w.calm ==> Fresh(w.Here(), n, found)
    modifies w
    ensures w.Valid() && n !in w.passes && old(w.acts) < w.acts
    ensures w.FateOf(n) == (if r.requeue then HeldUp else Well) && !r.failed && (w.calm ==> !r.requeue)
    ensures !r.requeue ==>
      && LastIs(w.acts, OfSet(n, PutFinalizers))
      && (n in w.nodeSets ==> "nodesets.finalizers.engine.azk.io" !in w.nodeSets[n].finalizers)
    ensures Dismantled(old(w.AccountOf(SetActor(n))), w.AccountOf(SetActor(n)), w.acts, |old(w.acts)|, w.refused,
                       w.calm, n, found.status.nodes, credentials)
  {
    DeleteNodeSet(w, n, found, credentials);
    var finalizers := RemoveFinalizer(found.finalizers, FINALIZER);
    RemovedMembers(found.finalizers, FINALIZER);
    var instance := found.(finalizers := finalizers);
    w.Interleave(SetActor(n));
    var ok := w.Update(n, instance);
    return Outcome(!ok, false);
  }

  /** A pass on an object without the finalizer, not marked for deletion. */
  method AddFinalizer(w: World, n: string, found: NodeSet) returns (r: Outcome)
    requires w.Valid() && w.FateOf(n) == Well
    requires w.Stands(n, AddingFinalizer(found.(finalizers := found.finalizers + [FINALIZER])))
    requires w.calm ==> Fresh(w.Here(), n, found)
    modifies w
    ensures w.Valid() && n !in w.passes && old(w.acts) < w.acts
    ensures r.requeue && (w.calm ==> !r.failed) && w.FateOf(n) == if r.failed then HeldUp else Well
    ensures !r.failed ==>
      n in w.nodeSets && w.nodeSets[n].finalizers == found.finalizers + ["nodesets.finalizers.engine.azk.io"]
  {
    var instance := found.(finalizers := found.finalizers + [FINALIZER]);
    w.Interleave(SetActor(n));
    var ok := w.Update(n, instance);
    return Outcome(true, !ok);
  }

  /** `before` and then the start of a pass that issued no call. */
  ghost predicate OnlyLooked(before: seq<Action>, after: seq<Action>, n: string) {
    after == before + [OfSet(n, Start)] || after == before + [OfSet(n, Start), OfSet(n, Abort)]
  }

  /** All four are there; the name of the cloud always is. */
  function CredentialsAreValid(cluster: Cluster): (valid: bool)
    ensures valid <==> "" !in [cluster.subscriptionID, cluster.clientID, cluster.clientSecret, cluster.tenantID]
  {
    cluster.subscriptionID != "" && cluster.clientID != "" && cluster.clientSecret != "" && cluster.tenantID != ""
  }

  /** One pass. `clusters` is what the listing of the clusters returns, and `lists` is what the node lists return. The
      calls of the pass, interleaved with anyone else's, form a legal run, and it is over at the end. */
  method Reconcile(w: World, n: string, clusters: Option<seq<Cluster>>, lists: nat -> Result<seq<Node>>)
      returns (r: Outcome)
    requires w.Valid() && n !in w.passes
    modifies w
    ensures w.Valid() && n !in w.passes && old(w.acts) < w.acts
    // Without the object, or without one cluster that succeeded, nothing is called.
    ensures old(n !in w.nodeSets) ==> r == Outcome(false, false) && OnlyLooked(old(w.acts), w.acts, n)
    ensures old(n in w.nodeSets) && !ReadyCluster(clusters) ==>
      && r == (if clusters.Some? && |clusters.value| == 1 then Outcome(true, false) else Outcome(false, true))
      && OnlyLooked(old(w.acts), w.acts, n)
    // Otherwise what is done depends on the object.
    ensures old(n in w.nodeSets) && ReadyCluster(clusters) ==>
      Handled(w, |old(w.acts)|, n, old(w.nodeSets)[n], old(w.cloud), clusters.value[0], lists, r)
  {
    var found := w.Get(n);
    if found.None? {
      return Outcome(false, false);
    }
    r := Attend(w, n, found.value, clusters, lists);
  }

  /** A pass on the object it read. */
  method Attend(w: World, n: string, instance: NodeSet, clusters: Option<seq<Cluster>>,
                lists: nat -> Result<seq<Node>>)
      returns (r: Outcome)
    requires w.Valid() && LastIs(w.acts, OfSet(n, Start)) && w.AccountOf(SetActor(n)) == Account(Well, [], NotDropped)
    requires if Begin(instance).Some? then w.Stands(n, Begin(instance).value) else n !in w.passes
    requires Fresh(w.Here(), n, instance)
    modifies w
    ensures w.Valid() && n !in w.passes && old(w.acts) <= w.acts
    ensures !ReadyCluster(clusters) ==>
      && r == (if clusters.Some? && |clusters.value| == 1 then Outcome(true, false) else Outcome(false, true))
      && (w.acts == old(w.acts) || w.acts == old(w.acts) + [OfSet(n, Abort)])
    ensures ReadyCluster(clusters) ==>
      Handled(w, |old(w.acts)| - 1, n, instance, old(w.cloud), clusters.value[0], lists, r)
  {
    var cluster := w.GetCluster(SetActor(n), clusters);
    if cluster.None? {
      w.GiveUp(n);
      return Outcome(false, true);
    }
    if cluster.value.provisioningState != "Succeeded" {
      w.GiveUp(n);
      return Outcome(true, false);
    }
    r := Handle(w, n, instance, cluster.value, lists);
  }

  /** A pass on an object that is marked for deletion: without the finalizer there is nothing to do; with it, its
      machines and its scale set are dismantled and the finalizer comes off, or there is another try. */
  ghost predicate Deleting(w: World, from: nat, n: string, o: NodeSet, cluster: Cluster, r: Outcome)
    reads w
  {
    if "nodesets.finalizers.engine.azk.io" in o.finalizers then
      && Dismantled(Account(Well, [], NotDropped), w.AccountOf(SetActor(n)), w.acts, from, w.refused, w.calm, n,
                    o.status.nodes, CredentialsAreValid(cluster))
      && !r.failed && w.FateOf(n) == (if r.requeue then HeldUp else Well) && (w.calm ==> !r.requeue)
      && (!r.requeue ==>
           && LastIs(w.acts, OfSet(n, PutFinalizers))
           && (n in w.nodeSets ==> "nodesets.finalizers.engine.azk.io" !in w.nodeSets[n].finalizers))
    else r == Outcome(false, false) && LastIs(w.acts, OfSet(n, Start)) && |w.acts| <= from + 1
  }

  /** A pass that listed these machines, or none, and fared well. */
  ghost predicate Maintained(w: World, from: nat, n: string, o: NodeSet, machines: Option<seq<VMStatus>>,
                             hashes: seq<string>, r: Outcome)
    reads w
  {
    match machines
    case None => r == Outcome(true, false) && hashes != [] && Created(w, n, o.spec.replicas)
    case Some(vms) =>
      && o.spec.replicas.Some?
      && if |vms| != o.spec.replicas.value then
           && r == Outcome(true, false) && hashes != [] && Scaled(w, n, o.spec.replicas)
           && w.AccountOf(SetActor(n)).drains == Behind(vms, o.spec.replicas.value)
         else r == Outcome(false, false) && Confirmed(w, from, n, o.(status := o.status.(nodes := vms)))
  }

  /** What the cloud holds, when nobody else acts. */
  ghost predicate ListedFrom(machines: Option<seq<VMStatus>>, calm: bool, cloud: map<string, ScaleSet>, n: string) {
    calm ==> machines == if n in cloud then Some(cloud[n].vms) else None
  }

  /** A pass on an object that is not marked for deletion. When every call is answered and nobody else acts, only the
      wait for nodes can hold it up, and what it does is determined by what the cloud held. */
  ghost predicate Maintaining(w: World, from: nat, n: string, o: NodeSet, cloud: map<string, ScaleSet>,
                              cluster: Cluster, lists: nat -> Result<seq<Node>>, r: Outcome)
    reads w
  {
    match w.FateOf(n)
    case InPanic(cause) =>
      r == Outcome(false, false) && Explains(cause, w.calm, o.spec.replicas, cluster.discoveryHashes)
    case HeldUp =>
      r.failed && (w.calm ==> o.spec.replicas.Some? && !EnoughInTime(lists, n, o.spec.replicas.value))
    case Well =>
      if "nodesets.finalizers.engine.azk.io" !in o.finalizers then
        && r == Outcome(true, false) && n in w.nodeSets
        && w.nodeSets[n].finalizers == o.finalizers + ["nodesets.finalizers.engine.azk.io"]
      else exists machines ::
        ListedFrom(machines, w.calm, cloud, n) && Maintained(w, from, n, o, machines, cluster.discoveryHashes, r)
  }

  /** What a pass on the object `o` did after the first `from` actions. */
  ghost predicate Handled(w: World, from: nat, n: string, o: NodeSet, cloud: map<string, ScaleSet>, cluster: Cluster,
                          lists: nat -> Result<seq<Node>>, r: Outcome)
    reads w
  {
    if o.deleting then Deleting(w, from, n, o, cluster, r) else Maintaining(w, from, n, o, cloud, cluster, lists, r)
  }

  /** A pass on the object it read, with the cluster at hand. */
  method Handle(w: World, n: string, instance: NodeSet, cluster: Cluster, lists: nat -> Result<seq<Node>>)
      returns (r: Outcome)
    requires w.Valid() && LastIs(w.acts, OfSet(n, Start)) && w.AccountOf(SetActor(n)) == Account(Well, [], NotDropped)
    requires if Begin(instance).Some? then w.Stands(n, Begin(instance).value) else n !in w.passes
    requires Fresh(w.Here(), n, instance)
    modifies w
    ensures w.Valid() && n !in w.passes && old(w.acts) <= w.acts
    ensures Handled(w, |old(w.acts)| - 1, n, instance, old(w.cloud), cluster, lists, r)
  {
    var has := ContainsFinalizer(instance.finalizers, FINALIZER);
    if !instance.deleting {
      if !has {
        r := AddFinalizer(w, n, instance);
        return;
      }
    } else {
      if has {
        r := FinishDeletion(w, n, instance, CredentialsAreValid(cluster));
        return;
      }
      return Outcome(false, false);
    }
    r := Maintain(w, |w.acts| - 1, n, instance, cluster, lists);
  }

  /** A pass on an object that holds the finalizer and is not marked for deletion. */
  method Maintain(w: World, ghost from: nat, n: string, instance: NodeSet, cluster: Cluster,
                  lists: nat -> Result<seq<Node>>)
      returns (r: Outcome)
    requires w.Valid() && w.Stands(n, Listing(instance)) && w.AccountOf(SetActor(n)) == Account(Well, [], NotDropped)
    requires from <= |w.acts| && (w.calm ==> Fresh(w.Here(), n, instance))
    requires "nodesets.finalizers.engine.azk.io" in instance.finalizers
    modifies w
    ensures w.Valid() && n !in w.passes && old(w.acts) <= w.acts
    ensures Maintaining(w, from, n, instance, old(w.cloud), cluster, lists, r)
  {
    var answer, listed := UpdateNodeSet(w, n, instance);
    ghost var machines := if answer.Works? then Some(listed.status.nodes) else None;
    assert !answer.Panics? ==> ListedFrom(machines, w.calm, old(w.cloud), n);
    if answer.Panics? {
      r := Outcome(false, false);
    } else if answer.Fails? {
      r := Provision(w, n, instance, cluster.discoveryHashes);
      assert w.FateOf(n) == Well ==> Maintained(w, from, n, instance, machines, cluster.discoveryHashes, r);
    } else if listed.spec.replicas.None? {
      r := Outcome(false, false);
    } else if listed.spec.replicas.value != |listed.status.nodes| {
      r := Scale(w, n, listed, cluster.discoveryHashes);
      assert w.FateOf(n) == Well ==> Maintained(w, from, n, instance, machines, cluster.discoveryHashes, r);
    } else {
      r := Confirm(w, n, listed, lists);
      assert w.FateOf(n) == Well ==> Maintained(w, from, n, instance, machines, cluster.discoveryHashes, r);
    }
  }
}
