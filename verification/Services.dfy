/**
 The API server and the cloud as the reconcilers call them. Each method is one call; the ghost fields record
 the run of the protocol that the calls add up to, and which call every running pass is about to issue.
 */
module Services {
  import opened Types
  import opened Helpers
  import opened Protocol
  import opened Coherence
  import Orphans

  datatype Actor = SetActor(name: string) | PoolActor

  predicate ActionOf(a: Action, who: Actor) {
    match who
    case SetActor(n) => a.OfSet? && a.set' == n
    case PoolActor => a.OfPool?
  }

  /** `after` extends `before` by actions of others only. */
  ghost predicate OthersActed(before: seq<Action>, after: seq<Action>, who: Actor) {
    && before <= after
    && forall i | |before| <= i < |after| :: !ActionOf(after[i], who)
  }

  /** What became of the scale set in a pass that finishes a deletion. */
  datatype Drop = NotDropped | Deleted | DeleteFailed | Skipped

  /** The account of the running, or last, pass of an actor: how it fares, the machines it called a drain for, worked
      or not, in order, and what it did to its scale set. */
  datatype Account = Account(fate: Fate, drains: seq<VMStatus>, drop: Drop)

  /** Every scale set that a pass left in the cloud when it dropped it belongs to one of `names`. */
  ghost predicate LeftOnly(acts: seq<Action>, names: set<string>) {
    forall a | a in acts :: Orphans.Drops(a) || a.set' in names
  }

  lemma LeftOnlyMore(acts: seq<Action>, names: set<string>, a: Action)
    requires LeftOnly(acts, names) && (Orphans.Drops(a) || a.set' in names)
    ensures LeftOnly(acts + [a], names)
  {}

  /** A status write that is not refused meets the spec that the pass read, on an object that stays. */
  lemma RecordsItsOwn(start: State, acts: seq<Action>, n: string, inst: NodeSet, next: Next)
    requires Coherent(start) && Run(start, acts)
    requires var s := After(start, acts); n in s.passes && s.passes[n] == Recording(inst, next) && Fresh(s, n, inst)
    ensures var cur := After(start, acts).nodeSets[n];
      cur.spec == inst.spec && (cur.deleting ==> cur.finalizers != [])
  {
    CoherentRun(start, acts);
    assert PassOk(After(start, acts), n);
  }

  class World {
    var clock: nat
    var pool: NodePool
    var nodeSets: map<string, NodeSet>
    var cloud: map<string, ScaleSet>
    const kubeconfig: string

    ghost var passes: map<string, Pass>
    ghost var poolPass: PoolPass
    ghost const start: State
    /** Every call is answered, and nobody else acts. */
    ghost const calm: bool
    ghost var acts: seq<Action>
    ghost var accounts: map<Actor, Account>
    /** The node sets for whose scale set a delete call failed. */
    ghost var refused: set<string>
    /** The node sets whose scale set a pass left alone. */
    ghost var skipped: set<string>

    ghost function Here(): State
      reads this
    {
      State(clock, kubeconfig, pool, nodeSets, cloud, passes, poolPass)
    }

    /** What was done so far is a legal run of the protocol, and it led here. */
    ghost predicate Valid()
      reads this
    {
      Coherent(start) && Run(start, acts) && After(start, acts) == Here() && LeftOnly(acts, refused + skipped)
    }

    ghost function AccountOf(who: Actor): Account
      reads this`accounts
    {
      if who in accounts then accounts[who] else Account(Well, [], NotDropped)
    }

    ghost function FateOf(n: string): Fate
      reads this`accounts
    {
      AccountOf(SetActor(n)).fate
    }

    ghost function PoolFate(): Fate
      reads this`accounts
    {
      AccountOf(PoolActor).fate
    }

    /** The pass of node set `n` is about to issue the call named by `p`. */
    ghost predicate Stands(n: string, p: Pass)
      reads this
    {
      n in passes && passes[n] == p
    }

    constructor (kubeconfig: string, pool: NodePool, ghost calm: bool)
      requires pool.status == NodePoolStatus("", 0, 0, "", "")
      ensures Valid() && Initial(Here()) && acts == [] && this.kubeconfig == kubeconfig && this.pool == pool
      ensures this.calm == calm
    {
      this.calm := calm;
      this.kubeconfig, this.pool, clock := kubeconfig, pool, pool.rv + 1;
      nodeSets, cloud, passes, poolPass, acts := map[], map[], map[], PoolIdle, [];
      accounts, refused, skipped := map[], {}, {};
      start := State(pool.rv + 1, kubeconfig, pool, map[], map[], map[], PoolIdle);
    }

    /** Records action `a`, whose effect on the stored fields has just been carried out. */
    ghost method Take(a: Action)
      requires Coherent(start) && Run(start, acts) && Enabled(After(start, acts), a)
      requires var s' := Apply(After(start, acts), a);
        clock == s'.clock && kubeconfig == s'.kubeconfig && pool == s'.pool && nodeSets == s'.nodeSets && cloud == s'.cloud
      requires LeftOnly(acts, refused + skipped) && (Orphans.Drops(a) || a.set' in refused + skipped)
      modifies this`passes, this`poolPass, this`acts
      ensures Valid() && acts == old(acts) + [a] && Here() == Apply(After(start, old(acts)), a)
    {
      var s' := Apply(After(start, acts), a);
      RunExtends(start, acts, a);
      LeftOnlyMore(acts, refused + skipped, a);
      passes, poolPass, acts := s'.passes, s'.poolPass, acts + [a];
    }

    /** Between two calls of a pass everyone else may act, any number of times. */
    method Interleave(ghost who: Actor)
      requires Valid()
      modifies this
      ensures Valid() && OthersActed(old(acts), acts, who)
      ensures who.SetActor? ==>
        (who.name in passes <==> who.name in old(passes))
        && (who.name in passes ==> passes[who.name] == old(passes[who.name]))
      ensures who.PoolActor? ==> poolPass == old(poolPass)
      ensures AccountOf(who) == old(AccountOf(who)) && old(refused) <= refused && old(skipped) <= skipped
      ensures calm ==> Here() == old(Here()) && acts == old(acts)
    {
    }

    /** Whether a call gets an answer. */
    method Answered() returns (ok: bool)
      ensures calm ==> ok
    {
      ok := true;
    }

    /** The pass is held up. */
    ghost method HoldUp(who: Actor)
      requires Valid() && !calm
      modifies this`accounts
      ensures Valid() && AccountOf(who) == old(AccountOf(who)).(fate := HeldUp)
    {
      accounts := accounts[who := AccountOf(who).(fate := HeldUp)];
    }

    /** The only cluster of the namespace, if it can be read and there is just one. */
    method GetCluster(ghost who: Actor, clusters: Option<seq<Cluster>>) returns (cluster: Option<Cluster>)
      requires Valid()
      modifies this`accounts
      ensures Valid()
      ensures cluster.Some? ==> clusters == Some([cluster.value])
      ensures cluster.None? ==> clusters.None? || |clusters.value| != 1
      ensures if ReadyCluster(clusters) then accounts == old(accounts)
        else AccountOf(who) == old(AccountOf(who)).(fate := HeldUp)
    {
      cluster := if clusters.Some? && |clusters.value| == 1 then Some(clusters.value[0]) else None;
      assert cluster.Some? ==> clusters.value == [cluster.value];
      if cluster.None? || cluster.value.provisioningState != "Succeeded" {
        accounts := accounts[who := AccountOf(who).(fate := HeldUp)];
      }
    }

    // ---------- Calls of the NodeSet reconciler ----------

    method Get(n: string) returns (found: Option<NodeSet>)
      requires Valid() && n !in passes
      modifies this`passes, this`poolPass, this`acts, this`accounts
      ensures Valid() && acts == old(acts) + [OfSet(n, Start)]
      ensures AccountOf(SetActor(n)) == Account(Well, [], NotDropped)
      ensures found == if n in nodeSets then Some(nodeSets[n]) else None
      ensures if found.Some? && Begin(found.value).Some? then Stands(n, Begin(found.value).value) else n !in passes
    {
      found := if n in nodeSets then Some(nodeSets[n]) else None;
      accounts := accounts - {SetActor(n)};
      Take(OfSet(n, Start));
    }

    /** The pass ends because something held it up. */
    ghost method GiveUp(n: string)
      requires Valid() && FateOf(n).HeldUp?
      modifies this`passes, this`poolPass, this`acts
      ensures Valid() && n !in passes
      ensures acts == if n in old(passes) then old(acts) + [OfSet(n, Abort)] else old(acts)
    {
      if n in passes {
        Take(OfSet(n, Abort));
      }
    }

    /** A failing call ends the pass. */
    ghost method Stop(n: string)
      requires Valid() && !calm
      modifies this`passes, this`poolPass, this`acts, this`accounts
      ensures Valid() && n !in passes
      ensures acts == if n in old(passes) then old(acts) + [OfSet(n, Abort)] else old(acts)
      ensures AccountOf(SetActor(n)) == old(AccountOf(SetActor(n))).(fate := HeldUp)
    {
      accounts := accounts[SetActor(n) := AccountOf(SetActor(n)).(fate := HeldUp)];
      GiveUp(n);
    }

    /** The pass of `n` ends in a panic. */
    ghost method PanicOn(n: string, cause: Panic)
      requires Valid() && n in passes
      modifies this`passes, this`poolPass, this`acts, this`accounts
      ensures Valid() && n !in passes && acts == old(acts) + [OfSet(n, Abort)]
      ensures AccountOf(SetActor(n)) == old(AccountOf(SetActor(n))).(fate := InPanic(cause))
    {
      accounts := accounts[SetActor(n) := AccountOf(SetActor(n)).(fate := InPanic(cause))];
      Take(OfSet(n, Abort));
    }

    /** The pass ends in the panic on a nil replica count. */
    ghost method PanicOnCount(n: string)
      requires Valid() && n in passes && passes[n].inst.spec.replicas.None?
      modifies this`passes, this`poolPass, this`acts, this`accounts
      ensures Valid() && n !in passes && acts == old(acts) + [OfSet(n, Abort)] && FateOf(n) == InPanic(NilCount)
    {
      PanicOn(n, NilCount);
    }

    /** Renders the startup script: needs a bootstrap token, and takes the first discovery hash without looking
        whether there is one. */
    method Render(n: string, hashes: seq<string>) returns (answer: Answer)
      requires Valid() && n in passes
      modifies this`passes, this`poolPass, this`acts, this`accounts
      ensures Valid()
      ensures answer.Works? ==>
        acts == old(acts) && passes == old(passes) && accounts == old(accounts) && hashes != []
      ensures answer.Fails? ==> acts == old(acts) && passes == old(passes) && FateOf(n).HeldUp? && !calm
      ensures answer.Panics? ==> n !in passes && acts == old(acts) + [OfSet(n, Abort)]
      ensures answer.Panics? ==> hashes == [] && FateOf(n) == InPanic(NoHash)
    {
      var token := Answered();
      if !token {
        HoldUp(SetActor(n));
        return Fails;
      }
      if hashes == [] {
        PanicOn(n, NoHash);
        return Panics;
      }
      return Works;
    }

    /** The update of an object that is as it was read. */
    method StoreObject(n: string, inst: NodeSet)
      requires Valid() && (Stands(n, AddingFinalizer(inst)) || Stands(n, RemovingFinalizer(inst)))
      requires Fresh(Here(), n, inst)
      modifies this
      ensures Valid() && n !in passes && acts == old(acts) + [OfSet(n, PutFinalizers)] && accounts == old(accounts)
      ensures refused == old(refused)
      ensures if inst.finalizers == [] then n !in nodeSets
        else n in nodeSets && nodeSets[n].spec == inst.spec && nodeSets[n].finalizers == inst.finalizers
    {
      CoherentRun(start, acts);
      assert PassOk(Here(), n);
      var next := nodeSets[n].(spec := inst.spec, finalizers := inst.finalizers);
      if next != nodeSets[n] {
        if next.deleting && next.finalizers == [] {
          nodeSets := nodeSets - {n};
        } else {
          nodeSets := nodeSets[n := next.(rv := clock)];
        }
        clock := clock + 1;
      }
      Take(OfSet(n, PutFinalizers));
    }

    /** Update of the object: refused when the copy is stale; may fail with or without effect. */
    method Update(n: string, inst: NodeSet) returns (ok: bool)
      requires Valid() && (Stands(n, AddingFinalizer(inst)) || Stands(n, RemovingFinalizer(inst)))
      requires calm ==> Fresh(Here(), n, inst)
      modifies this
      ensures Valid() && n !in passes && (calm ==> ok)
      ensures ok ==> old(Fresh(Here(), n, inst)) && acts == old(acts) + [OfSet(n, PutFinalizers)]
      ensures ok && inst.finalizers != [] ==>
        n in nodeSets && nodeSets[n].spec == inst.spec && nodeSets[n].finalizers == inst.finalizers
      ensures ok && inst.finalizers == [] ==> n !in nodeSets
      ensures acts == old(acts) + [OfSet(n, PutFinalizers)] || acts == old(acts) + [OfSet(n, Abort)]
      ensures refused == old(refused)
      ensures AccountOf(SetActor(n)) ==
        if ok then old(AccountOf(SetActor(n))) else old(AccountOf(SetActor(n))).(fate := HeldUp)
    {
      var reached := Answered();
      if !reached {
        Stop(n);
        return false;
      }
      if n !in nodeSets || nodeSets[n].rv != inst.rv {
        HoldUp(SetActor(n));
        Take(OfSet(n, PutFinalizers));
        return false;
      }
      StoreObject(n, inst);
      ok := Answered();
      if !ok {
        HoldUp(SetActor(n));
      }
    }

    /** The status write on an object that is as it was read. */
    method StoreStatus(n: string, inst: NodeSet, ghost next: Next) returns (stored: Option<NodeSet>)
      requires Valid() && Stands(n, Recording(inst, next)) && Fresh(Here(), n, inst)
      modifies this
      ensures Valid() && acts == old(acts) + [OfSet(n, Record)]
      ensures n in nodeSets && stored == Some(nodeSets[n]) && accounts == old(accounts) && cloud == old(cloud)
      ensures nodeSets[n].status == inst.status && nodeSets[n].spec == inst.spec
      ensures match AfterRecord(Here(), n, next) {
          case Some(p) => Stands(n, p)
          case None => n !in passes
        }
    {
      RecordsItsOwn(start, acts, n, inst, next);
      var new' := nodeSets[n].(status := inst.status);
      if new' != nodeSets[n] {
        nodeSets := nodeSets[n := new'.(rv := clock)];
        clock := clock + 1;
      }
      Take(OfSet(n, Record));
      stored := Some(nodeSets[n]);
    }

    /** A status write that the stored resource version refuses. */
    ghost method RefuseStatus(n: string, inst: NodeSet, next: Next)
      requires Valid() && Stands(n, Recording(inst, next)) && !Fresh(Here(), n, inst) && !calm
      modifies this`passes, this`poolPass, this`acts, this`accounts
      ensures Valid() && n !in passes && acts == old(acts) + [OfSet(n, Record)] && FateOf(n).HeldUp?
    {
      accounts := accounts[SetActor(n) := AccountOf(SetActor(n)).(fate := HeldUp)];
      Take(OfSet(n, Record));
    }

    /** Update of the status subresource; returns the object as stored. */
    method UpdateStatus(n: string, inst: NodeSet, ghost next: Next) returns (stored: Option<NodeSet>)
      requires Valid() && Stands(n, Recording(inst, next)) && (calm ==> Fresh(Here(), n, inst))
      modifies this
      ensures Valid() && (calm ==> stored.Some?) && (calm ==> cloud == old(cloud))
      ensures stored.Some? ==>
        && acts == old(acts) + [OfSet(n, Record)]
        && n in nodeSets && stored.value == nodeSets[n]
        && stored.value.status == inst.status && stored.value.spec == inst.spec
        && match AfterRecord(Here(), n, next) {
          case Some(p) => Stands(n, p)
          case None => n !in passes
        }
      ensures stored.Some? ==> accounts == old(accounts)
      ensures stored.None? ==> n !in passes && old(acts) < acts && FateOf(n).HeldUp?
    {
      var reached := Answered();
      if !reached {
        Stop(n);
        return None;
      }
      if n !in nodeSets || nodeSets[n].rv != inst.rv {
        RefuseStatus(n, inst, next);
        return None;
      }
      stored := StoreStatus(n, inst, next);
      var answered := Answered();
      if !answered {
        Stop(n);
        stored := None;
      }
    }

    /** The machines of the scale set; fails when there is none, and may fail otherwise. A machine without a profile
        makes the pass panic, and a nil replica count does so right after the listing. */
    method ListMachines(n: string, ghost inst: NodeSet) returns (answer: Answer, vms: seq<VMStatus>)
      requires Valid() && Stands(n, Listing(inst))
      modifies this`passes, this`poolPass, this`acts, this`accounts
      ensures Valid()
      ensures calm ==> answer == if n in cloud then Works else Fails
      ensures answer.Panics? ==>
        n !in passes && acts == old(acts) + [OfSet(n, Abort)] && FateOf(n) == InPanic(NilField)
      ensures answer.Fails? || (answer.Works? && inst.spec.replicas.Some?) ==> accounts == old(accounts)
      ensures !answer.Panics? ==> acts == old(acts) + [OfSet(n, ListVMs(answer.Works?))]
      ensures answer.Works? ==>
        && n in cloud && vms == cloud[n].vms
        && match AfterList(inst.(status := inst.status.(nodes := vms))) {
          case Some(p) => Stands(n, p)
          case None => n !in passes && FateOf(n) == InPanic(NilCount)
        }
      ensures answer.Fails? ==>
        Stands(n, Recording(inst.(status := inst.status.(state := "Updating")), ThenCreate))
    {
      var answered := Answered();
      var readable := Answered();
      vms := [];
      if answered && n in cloud && !readable {
        PanicOn(n, NilField);
        return Panics, vms;
      }
      if answered && n in cloud {
        answer, vms := Works, cloud[n].vms;
        if inst.spec.replicas.None? {
          accounts := accounts[SetActor(n) := AccountOf(SetActor(n)).(fate := InPanic(NilCount))];
        }
      } else {
        answer := Fails;
      }
      Take(OfSet(n, ListVMs(answer.Works?)));
    }

    /** Creates the scale set, or brings an existing one to `count`; may fail with or without effect. */
    method CreateVMSS(n: string, count: int) returns (ok: bool)
      requires Valid() && n in passes && passes[n].Creating? && passes[n].inst.spec.replicas == Some(count)
      modifies this
      ensures Valid() && n !in passes && old(acts) < acts
      ensures ok ==> n in cloud && cloud[n].capacity == count
      ensures ok ==> acts == old(acts) + [OfSet(n, CreateScaleSet(cloud[n]))] && accounts == old(accounts)
      ensures !ok ==> FateOf(n).HeldUp? && !calm
    {
      var reached := Answered();
      if !reached {
        Stop(n);
        return false;
      }
      var vms: seq<VMStatus> := *;
      cloud := cloud[n := ScaleSet(count, vms)];
      Take(OfSet(n, CreateScaleSet(ScaleSet(count, vms))));
      ok := Answered();
      if !ok {
        HoldUp(SetActor(n));
      }
    }

    /** Cordon, drain and remove the node of a machine. Only a scaling is held up when that fails. */
    method DrainNode(n: string, vm: VMStatus) returns (ok: bool)
      requires Valid() && n in passes && Enabled(Here(), OfSet(n, DrainVM(vm)))
      modifies this`passes, this`poolPass, this`acts, this`accounts
      ensures Valid()
      ensures ok ==> acts == old(acts) + [OfSet(n, DrainVM(vm))]
      ensures AccountOf(SetActor(n)) == old(AccountOf(SetActor(n))).(
        drains := old(AccountOf(SetActor(n)).drains) + [vm],
        fate := if ok || old(passes[n]).DroppingScaleSet? then old(FateOf(n)) else HeldUp)
      ensures calm ==> ok
      ensures ok ==> Stands(n, old(if passes[n].Scaling? then passes[n].(drained := true) else passes[n]))
      ensures !ok ==> acts == old(acts) && passes == old(passes)
    {
      ghost var account := AccountOf(SetActor(n));
      accounts := accounts[SetActor(n) := account.(drains := account.drains + [vm])];
      ok := Answered();
      if ok {
        Take(OfSet(n, DrainVM(vm)));
      } else if !passes[n].DroppingScaleSet? {
        HoldUp(SetActor(n));
      }
    }

    /** A deletion of a machine that the cloud accepts. */
    method TakeInstance(n: string, vm: VMStatus)
      requires Valid() && n in cloud && n in passes && passes[n].Scaling? && passes[n].drained
      requires passes[n].k < |passes[n].inst.status.nodes| && vm == passes[n].inst.status.nodes[passes[n].k]
      modifies this
      ensures Valid() && n in cloud && acts == old(acts) + [OfSet(n, DeleteVM(vm, cloud[n]))]
      ensures Stands(n, old(passes[n].(k := passes[n].k + 1, drained := false))) && accounts == old(accounts)
    {
      var rest: ScaleSet := *;
      cloud := cloud[n := rest];
      Take(OfSet(n, DeleteVM(vm, rest)));
    }

    /** Deletes one machine; the capacity may follow at once or later. */
    method DeleteInstance(n: string, vm: VMStatus) returns (ok: bool)
      requires Valid() && n in passes && passes[n].Scaling? && passes[n].drained
      requires passes[n].k < |passes[n].inst.status.nodes| && vm == passes[n].inst.status.nodes[passes[n].k]
      requires calm ==> n in cloud
      modifies this
      ensures Valid() && old(acts) < acts && (calm ==> ok)
      ensures ok ==>
        && n in cloud && acts == old(acts) + [OfSet(n, DeleteVM(vm, cloud[n]))]
        && Stands(n, old(passes[n].(k := passes[n].k + 1, drained := false)))
      ensures ok ==> accounts == old(accounts)
      ensures !ok ==> n !in passes && FateOf(n).HeldUp?
    {
      var reached := Answered();
      if !reached || n !in cloud {
        Stop(n);
        return false;
      }
      TakeInstance(n, vm);
      ok := Answered();
      if !ok {
        Stop(n);
      }
    }

    /** Reads the capacity and sets it to `count` unless it is that already; panics when the answer has no
        capacity. */
    method ScaleVMSS(n: string, count: int) returns (answer: Answer)
      requires Valid() && n in passes && passes[n].Scaling? && passes[n].inst.spec.replicas == Some(count)
      requires passes[n].k == |passes[n].inst.status.nodes| && !passes[n].drained && (calm ==> n in cloud)
      modifies this
      ensures Valid() && n !in passes && old(acts) < acts && (calm ==> answer.Works?)
      ensures answer.Works? ==> n in cloud && cloud[n].capacity == count && accounts == old(accounts)
      ensures answer.Works? ==> acts[|acts| - 1] == OfSet(n, Resize(cloud[n]))
      ensures answer.Fails? ==> FateOf(n).HeldUp?
      ensures answer.Works? && old(n in cloud && cloud[n].capacity == count) ==> cloud == old(cloud)
      ensures answer.Panics? ==> acts == old(acts) + [OfSet(n, Abort)] && FateOf(n) == InPanic(NilField)
    {
      var reached := Answered();
      var readable := Answered();
      if !reached || n !in cloud {
        Stop(n);
        return Fails;
      }
      if !readable {
        PanicOn(n, NilField);
        return Panics;
      }
      if cloud[n].capacity == count {
        Take(OfSet(n, Resize(cloud[n])));
        return Works;
      }
      var vms: seq<VMStatus> := *;
      cloud := cloud[n := ScaleSet(count, vms)];
      Take(OfSet(n, Resize(ScaleSet(count, vms))));
      var answered := Answered();
      if !answered {
        HoldUp(SetActor(n));
      }
      answer := if answered then Works else Fails;
    }

    /** Deletes the scale set; a call that fails may have deleted it. */
    method DeleteVMSS(n: string) returns (ok: bool)
      requires Valid() && n in passes && passes[n].DroppingScaleSet?
      modifies this
      ensures Valid() && acts == old(acts) + [OfSet(n, DropScaleSet(n !in cloud))]
      ensures ok ==> n !in cloud
      ensures !ok ==> n in refused && !calm
      ensures calm ==> nodeSets == old(nodeSets)
      ensures AccountOf(SetActor(n)) ==
        old(AccountOf(SetActor(n))).(drop := if ok then Deleted else DeleteFailed)
      ensures Stands(n, old(RemovingFinalizer(
        passes[n].inst.(finalizers := Removed(passes[n].inst.finalizers, FINALIZER)))))
    {
      ok := Answered();
      var effect: bool := *;
      if ok || effect {
        cloud := cloud - {n};
      }
      if !ok {
        refused := refused + {n};
      }
      accounts := accounts[SetActor(n) := AccountOf(SetActor(n)).(drop := if ok then Deleted else DeleteFailed)];
      Take(OfSet(n, DropScaleSet(n !in cloud)));
    }

    /** The pass leaves the scale set alone: its credentials are unusable. */
    ghost method SkipVMSS(n: string)
      requires Valid() && n in passes && passes[n].DroppingScaleSet?
      modifies this`passes, this`poolPass, this`acts, this`accounts, this`skipped
      ensures Valid() && acts == old(acts) + [OfSet(n, DropScaleSet(false))] && n in skipped
      ensures AccountOf(SetActor(n)) == old(AccountOf(SetActor(n))).(drop := Skipped)
      ensures Stands(n, old(RemovingFinalizer(
        passes[n].inst.(finalizers := Removed(passes[n].inst.finalizers, FINALIZER)))))
    {
      skipped := skipped + {n};
      accounts := accounts[SetActor(n) := AccountOf(SetActor(n)).(drop := Skipped)];
      Take(OfSet(n, DropScaleSet(false)));
    }

    /** Waits until enough nodes of the set are listed; `lists` is what the List calls return. */
    method WaitNodes(n: string, count: int, lists: nat -> Result<seq<Node>>) returns (err: Option<string>)
      requires Valid() && n in passes && passes[n].Awaiting? && passes[n].inst.spec.replicas == Some(count)
      modifies this`passes, this`poolPass, this`acts, this`accounts
      ensures Valid()
      ensures err.None? ==>
        && accounts == old(accounts)
        && Stands(n, Recording(Succeeded(old(passes)[n].inst, kubeconfig), ThenDone))
        && exists i: nat | i < POLLS && Enough(lists(i), n, count) ::
             acts == old(acts) + [OfSet(n, NodesReady(
               old(passes)[n].inst.spec.version, |old(passes)[n].inst.status.nodes|, lists(i).value))]
      ensures err.Some? ==> n !in passes && old(acts) < acts && FateOf(n).HeldUp?
      ensures err.None? <==> EnoughInTime(lists, n, count)
    {
      ghost var last;
      err, last := WaitForNodesReady(lists, n, count);
      if err.Some? {
        accounts := accounts[SetActor(n) := AccountOf(SetActor(n)).(fate := HeldUp)];
        Take(OfSet(n, Abort));
      } else {
        ghost var inst := passes[n].inst;
        Take(OfSet(n, NodesReady(inst.spec.version, |inst.status.nodes|, lists(last).value)));
      }
    }

    // ---------- Calls of the NodePool reconciler ----------

    method GetPool() returns (inst: NodePool)
      requires Valid() && poolPass.PoolIdle?
      modifies this`passes, this`poolPass, this`acts, this`accounts
      ensures Valid() && acts == old(acts) + [OfPool(PoolStart)] && PoolFate() == Well
      ensures inst == pool && poolPass == Fetching(inst)
    {
      inst := pool;
      accounts := accounts - {PoolActor};
      Take(OfPool(PoolStart));
    }

    /** A failing call ends the pass of the pool. */
    ghost method StopPool()
      requires Valid() && !poolPass.PoolIdle? && !calm
      modifies this`passes, this`poolPass, this`acts, this`accounts
      ensures Valid() && poolPass.PoolIdle? && acts == old(acts) + [OfPool(PoolAbort)] && PoolFate().HeldUp?
    {
      accounts := accounts[PoolActor := AccountOf(PoolActor).(fate := HeldUp)];
      Take(OfPool(PoolAbort));
    }

    /** The target, if it is there; the call may fail. */
    method GetTarget(inst: NodePool, name: string) returns (answer: Result<Option<NodeSet>>)
      requires Valid() && poolPass == Fetching(inst) && name == Target(inst)
      modifies this`passes, this`poolPass, this`acts, this`accounts
      ensures Valid()
      ensures answer.Ok? ==>
        && acts == old(acts) + [OfPool(PoolFetch)] && accounts == old(accounts)
        && answer.value == (if name in nodeSets then Some(nodeSets[name]) else None)
        && poolPass == FetchedPass(old(Here()), inst)
      ensures answer.Err? ==> poolPass.PoolIdle? && old(acts) < acts && PoolFate().HeldUp? && !calm
    {
      var answered := Answered();
      if !answered {
        StopPool();
        return Err("not read");
      }
      answer := Ok(if name in nodeSets then Some(nodeSets[name]) else None);
      Take(OfPool(PoolFetch));
    }

    method CreateNodeSet(ghost inst: NodePool, name: string, spec: NodeSetSpec) returns (ok: bool)
      requires Valid() && poolPass == CreatingSet(inst) && name == Target(inst) && spec == inst.spec
      requires calm ==> name !in nodeSets
      modifies this
      ensures Valid() && poolPass.PoolIdle? && old(acts) < acts
      ensures ok ==> old(name !in nodeSets) && name in nodeSets && nodeSets[name].spec == spec
      ensures ok ==> nodeSets == old(nodeSets)[name := nodeSets[name]]
      ensures ok ==> nodeSets[name].status == EMPTY_STATUS && acts == old(acts) + [OfPool(PoolCreate)]
      ensures if ok then accounts == old(accounts) else PoolFate().HeldUp? && !calm
    {
      var reached := Answered();
      if !reached {
        StopPool();
        return false;
      }
      if name in nodeSets {
        HoldUp(PoolActor);
        Take(OfPool(PoolCreate));
        return false;
      }
      nodeSets := nodeSets[name := NodeSet(clock, spec, EMPTY_STATUS, [], false)];
      clock := clock + 1;
      Take(OfPool(PoolCreate));
      ok := Answered();
      if !ok {
        HoldUp(PoolActor);
      }
    }

    /** The update of a target that is as it was read. */
    method StoreSpec(ghost inst: NodePool, name: string, found: NodeSet)
      requires Valid() && poolPass == Respecing(inst, found) && name == Target(inst) && Fresh(Here(), name, found)
      modifies this
      ensures Valid() && acts == old(acts) + [OfPool(PoolRespec)] && accounts == old(accounts) && pool == old(pool)
      ensures name in nodeSets && nodeSets[name].spec == found.spec && poolPass == AfterFound(inst, nodeSets[name])
      ensures name in nodeSets && nodeSets == old(nodeSets)[name := nodeSets[name]]
      ensures name in nodeSets && name in old(nodeSets) && nodeSets[name].status == old(nodeSets)[name].status
    {
      CoherentRun(start, acts);
      var next := nodeSets[name].(spec := found.spec, finalizers := found.finalizers);
      if next != nodeSets[name] {
        nodeSets := nodeSets[name := next.(rv := clock)];
        clock := clock + 1;
      }
      Take(OfPool(PoolRespec));
    }

    /** Update of the target's spec; returns the object as stored. */
    method UpdateSpec(ghost inst: NodePool, name: string, found: NodeSet) returns (stored: Option<NodeSet>)
      requires Valid() && poolPass == Respecing(inst, found) && name == Target(inst)
      requires calm ==> Fresh(Here(), name, found)
      modifies this
      ensures Valid() && old(acts) < acts && (stored.Some? ==> pool == old(pool))
      ensures stored.Some? ==>
        && name in old(nodeSets) && nodeSets == old(nodeSets)[name := stored.value]
        && stored.value.status == old(nodeSets)[name].status
      ensures stored.Some? ==> acts == old(acts) + [OfPool(PoolRespec)]
      ensures stored.Some? ==>
        name in nodeSets && stored.value == nodeSets[name] && poolPass == AfterFound(inst, stored.value)
      ensures stored.Some? ==> stored.value.spec == found.spec && accounts == old(accounts)
      ensures stored.None? ==> poolPass.PoolIdle? && PoolFate().HeldUp? && !calm
    {
      var reached := Answered();
      if !reached {
        StopPool();
        return None;
      }
      if name !in nodeSets || nodeSets[name].rv != found.rv {
        HoldUp(PoolActor);
        Take(OfPool(PoolRespec));
        return None;
      }
      StoreSpec(inst, name, found);
      stored := Some(nodeSets[name]);
      var answered := Answered();
      if !answered {
        StopPool();
        stored := None;
      }
    }

    /** The names of all node sets of the namespace, in any order; the call may fail. */
    method ListNodeSets(ghost inst: NodePool, ghost found: NodeSet) returns (ok: bool, names: seq<string>)
      requires Valid() && poolPass == ListingSets(inst, found)
      modifies this`passes, this`poolPass, this`acts, this`accounts
      ensures Valid()
      ensures ok ==> acts == old(acts) + [OfPool(PoolList(names))] && accounts == old(accounts)
      ensures ok ==> poolPass == Collecting(inst, found, names) && ListsAll(Here(), names)
      ensures !ok ==> poolPass.PoolIdle? && old(acts) < acts && PoolFate().HeldUp? && !calm
    {
      names := [];
      ok := Answered();
      if !ok {
        StopPool();
        return;
      }
      var rest := nodeSets.Keys;
      while rest != {}
        invariant rest <= nodeSets.Keys
        invariant forall n :: n in names <==> n in nodeSets && n !in rest
        invariant forall i, j | 0 <= i < j < |names| :: names[i] != names[j]
        decreases rest
      {
        var n :| n in rest;
        rest := rest - {n};
        names := names + [n];
      }
      Take(OfPool(PoolList(names)));
    }

    /** A step of the collecting loop that issues no call. */
    ghost method Advance(inst: NodePool, found: NodeSet, left: seq<string>)
      requires Valid() && poolPass == Collecting(inst, found, left) && (left == [] || left[0] == Target(inst))
      modifies this`passes, this`poolPass, this`acts
      ensures Valid() && acts == old(acts) + [OfPool(PoolCollect)]
      ensures poolPass == if left == [] then Mirroring(inst, found) else Collecting(inst, found, left[1..])
    {
      Take(OfPool(PoolCollect));
    }

    /** A delete call that arrives: with finalizers the object is only marked. */
    method Discard(ghost inst: NodePool, ghost found: NodeSet, ghost left: seq<string>, name: string)
      requires Valid() && poolPass == Collecting(inst, found, left)
      requires left != [] && left[0] == name && name != Target(inst) && name in nodeSets
      modifies this
      ensures Valid() && acts == old(acts) + [OfPool(PoolCollect)] && poolPass == Collecting(inst, found, left[1..])
      ensures accounts == old(accounts) && pool == old(pool)
      ensures forall m :: m in old(nodeSets) && m != name ==> m in nodeSets && nodeSets[m] == old(nodeSets[m])
      ensures if old(nodeSets[name]).finalizers == [] then name !in nodeSets
        else name in nodeSets && nodeSets[name].deleting
    {
      var cur := nodeSets[name];
      if cur.finalizers == [] {
        nodeSets := nodeSets - {name};
        clock := clock + 1;
      } else if !cur.deleting {
        nodeSets := nodeSets[name := cur.(deleting := true, rv := clock)];
        clock := clock + 1;
      }
      Take(OfPool(PoolCollect));
    }

    method DeleteNodeSet(ghost inst: NodePool, ghost found: NodeSet, ghost left: seq<string>, name: string)
        returns (ok: bool)
      requires Valid() && poolPass == Collecting(inst, found, left)
      requires left != [] && left[0] == name && name != Target(inst) && (calm ==> name in nodeSets)
      modifies this
      ensures Valid() && old(acts) < acts && (ok ==> pool == old(pool))
      ensures ok ==>
        forall m :: m in old(nodeSets) && m != name ==> m in nodeSets && nodeSets[m] == old(nodeSets[m])
      ensures ok ==> acts == old(acts) + [OfPool(PoolCollect)] && poolPass == Collecting(inst, found, left[1..])
      ensures ok ==> old(name in nodeSets) && (name !in nodeSets || nodeSets[name].deleting)
      ensures ok ==> accounts == old(accounts)
      ensures !ok ==> poolPass.PoolIdle? && PoolFate().HeldUp? && !calm
    {
      var reached := Answered();
      if !reached {
        StopPool();
        return false;
      }
      if name !in nodeSets {
        HoldUp(PoolActor);
        Take(OfPool(PoolCollect));
        return false;
      }
      Discard(inst, found, left, name);
      ok := Answered();
      if !ok {
        StopPool();
      }
    }

    method UpdatePoolStatus(inst: NodePool, ghost found: NodeSet, status: NodePoolStatus) returns (ok: bool)
      requires Valid() && poolPass == Mirroring(inst, found) && status == Mirror(Target(inst), found.status)
      requires calm ==> pool.rv == inst.rv
      modifies this
      ensures Valid() && poolPass.PoolIdle? && old(acts) < acts
      ensures ok ==> acts == old(acts) + [OfPool(PoolMirror)] && pool.status == status && accounts == old(accounts)
      ensures ok ==> nodeSets == old(nodeSets) && pool.spec == old(pool.spec)
      ensures !ok ==> PoolFate().HeldUp? && !calm
    {
      var reached := Answered();
      if !reached {
        StopPool();
        return false;
      }
      if pool.rv != inst.rv {
        HoldUp(PoolActor);
        Take(OfPool(PoolMirror));
        return false;
      }
      if pool.status != status {
        pool := pool.(status := status, rv := clock);
        clock := clock + 1;
      }
      Take(OfPool(PoolMirror));
      ok := Answered();
      if !ok {
        HoldUp(PoolActor);
      }
    }
  }
}
