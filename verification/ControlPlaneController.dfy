/** The control-plane reconciler, call by call, on an API server and masters that others may change in between. */
module ControlPlaneController {
  import opened Types
  import Helpers
  import opened ControlPlane
  import opened NodeSetController

  const MASTERS := "azk-master-vmss"
  const MASTER_COUNT := 3

  /** One of the polled node lists held the three masters. */
  ghost predicate MastersListed(lists: nat -> Result<seq<Helpers.Node>>) {
    exists i: nat | i < 100 :: lists(i).Ok? && Helpers.CountReady(lists(i).value, "azk-master-vmss") >= 3
  }

  class Plane {
    var clock: nat
    var object': Object
    var masters: map<string, Master>

    ghost var pass: Option<Pass>
    ghost const start: State
    ghost var acts: seq<Action>
    /** How the running, or last, pass fares. */
    ghost var fate: Fate
    /** Every call is answered, and nobody else acts. */
    ghost const calm: bool
    /** How often a node was asked for. */
    ghost var looks: nat

    ghost function Here(): State
      reads this
    {
      State(clock, object', masters, pass)
    }

    /** What was done so far is a legal run, and it led here. */
    ghost predicate Valid()
      reads this
    {
      Current(start) && Run(start, acts) && After(start, acts) == Here()
    }

    ghost predicate Stands(p: Pass)
      reads this
    {
      pass == Some(p)
    }

    ghost method Take(a: Action)
      requires Current(start) && Run(start, acts) && Enabled(After(start, acts), a)
      requires var s' := Apply(After(start, acts), a);
        clock == s'.clock && object' == s'.object' && masters == s'.masters
      modifies this`pass, this`acts
      ensures Valid() && acts == old(acts) + [a] && Here() == Apply(After(start, old(acts)), a)
    {
      var s' := Apply(After(start, acts), a);
      RunExtends(start, acts, a);
      pass, acts := s'.pass, acts + [a];
    }

    /** Users may change the version and commands may land, but nobody else moves the pass. */
    method Interleave()
      requires Valid()
      modifies this
      ensures Valid() && old(acts) <= acts && pass == old(pass) && fate == old(fate)
      ensures looks == old(looks)
      ensures calm ==> Here() == old(Here()) && acts == old(acts)
    {
    }

    /** Whether a call gets an answer. */
    method Answered() returns (ok: bool)
      ensures calm ==> ok
    {
      ok := true;
    }

    /** The pass ends because something held it up. */
    ghost method GiveUp()
      requires Valid() && fate.HeldUp?
      modifies this`pass, this`acts
      ensures Valid() && pass.None?
      ensures acts == if old(pass).Some? then old(acts) + [Abort] else old(acts)
    {
      if pass.Some? {
        Take(Abort);
      }
    }

    /** A failing call ends the pass. */
    ghost method Stop()
      requires Valid() && !calm
      modifies this`pass, this`acts, this`fate
      ensures Valid() && pass.None? && fate == HeldUp
      ensures acts == if old(pass).Some? then old(acts) + [Abort] else old(acts)
    {
      fate := HeldUp;
      GiveUp();
    }

    ghost method PanicOn(cause: Panic)
      requires Valid() && pass.Some?
      modifies this`pass, this`acts, this`fate
      ensures Valid() && pass.None? && acts == old(acts) + [Abort] && fate == InPanic(cause)
    {
      fate := InPanic(cause);
      Take(Abort);
    }

    method Get() returns (inst: Object)
      requires Valid() && pass.None?
      modifies this`pass, this`acts, this`fate
      ensures Valid() && acts == old(acts) + [Start] && inst == object' && fate == Well
      ensures if inst.version == inst.status.version then pass.None? else Stands(Listing(inst))
    {
      inst := object';
      fate := Well;
      Take(Start);
    }

    /** The only cluster of the namespace, if it can be read and there is just one. */
    method GetCluster(clusters: Option<seq<Cluster>>) returns (cluster: Option<Cluster>)
      requires Valid()
      modifies this`fate
      ensures Valid()
      ensures cluster.Some? ==> clusters == Some([cluster.value])
      ensures cluster.None? ==> clusters.None? || |clusters.value| != 1
      ensures fate == if ReadyCluster(clusters) then old(fate) else HeldUp
    {
      cluster := if clusters.Some? && |clusters.value| == 1 then Some(clusters.value[0]) else None;
      assert cluster.Some? ==> clusters.value == [cluster.value];
      if cluster.None? || cluster.value.provisioningState != "Succeeded" {
        fate := HeldUp;
      }
    }

    /** Renders the startup script: needs a bootstrap token, and takes the first discovery hash without looking
        whether there is one. */
    method Render(hashes: seq<string>) returns (answer: Answer)
      requires Valid() && pass.Some?
      modifies this`pass, this`acts, this`fate
      ensures Valid() && old(acts) <= acts
      ensures answer.Works? ==> pass == old(pass) && fate == old(fate) && hashes != []
      ensures !answer.Works? ==> pass.None?
      ensures answer.Panics? ==> hashes == [] && fate == InPanic(NoHash)
      ensures answer.Fails? ==> fate == HeldUp && !calm
    {
      var token := Answered();
      if !token {
        Stop();
        return Fails;
      }
      if hashes == [] {
        PanicOn(NoHash);
        return Panics;
      }
      return Works;
    }

    /** What the cloud names as the machines of the master scale set. */
    method MasterNames() returns (names: seq<string>)
      ensures forall n | n in names :: n in masters
    {
      names := [];
    }

    /** The machines of the master scale set, in list order; one without a profile makes the pass panic. */
    method ListMachines(ghost inst: Object) returns (answer: Answer, names: seq<string>)
      requires Valid() && Stands(Listing(inst))
      modifies this`pass, this`acts, this`fate
      ensures Valid() && old(acts) < acts
      ensures answer.Works? ==> fate == old(fate) && forall n | n in names :: n in masters
      ensures answer.Works? ==>
        Stands(Recording(inst.(status := inst.status.(nodes := names, state := "Updating")), false))
      ensures !answer.Works? ==> pass.None? && !calm
      ensures answer.Panics? ==> fate == InPanic(NilField)
      ensures answer.Fails? ==> fate == HeldUp
    {
      names := MasterNames();
      var answered := Answered();
      var readable := Answered();
      if !answered {
        Stop();
        return Fails, names;
      }
      if !readable {
        PanicOn(NilField);
        return Panics, names;
      }
      Take(ListMasters(names));
      answer := Works;
    }

    /** The status write on an object that is as it was read. */
    method StoreStatus(inst: Object, ghost done: bool)
      requires Valid() && Stands(Recording(inst, done)) && object'.rv == inst.rv
      modifies this
      ensures Valid() && acts == old(acts) + [Record]
      ensures object'.status == inst.status && object'.version == inst.version
      ensures if done then pass.None? else Stands(Provisioning(object'))
      ensures masters == old(masters) && fate == old(fate)
    {
      CurrentRun(start, acts);
      if object'.status != inst.status {
        object' := object'.(status := inst.status, rv := clock);
        clock := clock + 1;
      }
      Take(Record);
    }

    method UpdateStatus(inst: Object, ghost done: bool) returns (stored: Option<Object>)
      requires Valid() && Stands(Recording(inst, done)) && (calm ==> object'.rv == inst.rv)
      modifies this
      ensures Valid() && old(acts) < acts && masters == old(masters)
      ensures stored.Some? ==>
        && acts == old(acts) + [Record] && stored.value == object' && object'.status == inst.status
        && old(object'.rv) == inst.rv && object'.version == inst.version
        && (if done then pass.None? else Stands(Provisioning(stored.value)))
        && fate == old(fate)
      ensures stored.None? ==> pass.None? && fate == HeldUp && !calm
    {
      var reached := Answered();
      if !reached {
        Stop();
        return None;
      }
      if object'.rv != inst.rv {
        fate := HeldUp;
        Take(Record);
        return None;
      }
      StoreStatus(inst, done);
      stored := Some(object');
      var answered := Answered();
      if !answered {
        Stop();
        stored := None;
      }
    }

    /** The machines that join with an update of the scale set. */
    method Joining() returns (joined: set<string>)
      ensures joined !! masters.Keys
    {
      joined := {};
    }

    /** Creates or updates the master scale set; masters that join run the wanted version. */
    method CreateVMSS(inst: Object) returns (ok: bool)
      requires Valid() && Stands(Provisioning(inst))
      modifies this
      ensures Valid() && old(acts) < acts && old(masters.Keys) <= masters.Keys && object' == old(object')
      ensures ok ==> Stands(if Upgrades(inst) then Checking(inst, 0) else Awaiting(inst)) && fate == old(fate)
      ensures !ok ==> pass.None? && fate == HeldUp && !calm
    {
      var joined := Joining();
      var reached := Answered();
      if !reached {
        Stop();
        return false;
      }
      masters := masters + map n | n in joined :: Master(inst.version, {});
      Take(Provision(joined));
      ok := Answered();
      if !ok {
        Stop();
      }
    }

    /** What the API server shows of the node of a master. */
    method GetNode(name: string) returns (node: Result<Helpers.Node>)
      requires Valid() && (calm ==> name in masters)
      modifies this`fate, this`looks
      ensures Valid() && looks == old(looks) + 1
      ensures node.Err? ==> fate == HeldUp && !calm
      ensures node.Ok? ==> fate == old(fate)
      ensures node.Ok? ==> name in masters && node.value.kubeletVersion == "v" + masters[name].version
    {
      looks := looks + 1;
      var answered := Answered();
      if !answered || name !in masters {
        fate := HeldUp;
        return Err("not found");
      }
      return Ok(Helpers.Node(name, "v" + masters[name].version, []));
    }

    /** The step of the loop that reads the node of master `i`. */
    ghost method TakeCheck(inst: Object, i: nat)
      requires Valid() && Stands(Checking(inst, i)) && i < |inst.status.nodes| && inst.status.nodes[i] in masters
      modifies this`pass, this`acts
      ensures Valid() && acts == old(acts) + [Check]
      ensures Stands(if masters[inst.status.nodes[i]].version == inst.version then Checking(inst, i + 1)
                     else Commanding(inst, i))
    {
      Take(Check);
    }

    /** Runs the upgrade script on a master; may fail before or after the command was accepted. */
    method RunCommand(inst: Object, i: nat) returns (ok: bool)
      requires Valid() && Stands(Commanding(inst, i)) && i < |inst.status.nodes|
      requires calm ==> inst.status.nodes[i] in masters
      modifies this
      ensures Valid() && old(acts) < acts && object' == old(object') && masters.Keys == old(masters.Keys)
      ensures ok ==> acts == old(acts) + [Command(inst.status.nodes[i])] && Stands(Waiting(inst, i)) && fate == old(fate)
      ensures calm ==> ok
      ensures !ok ==> pass.None? && fate == HeldUp && !calm
    {
      var name := inst.status.nodes[i];
      var reached := Answered();
      if !reached || name !in masters {
        Stop();
        return false;
      }
      masters := masters[name := masters[name].(pending := masters[name].pending + {inst.version})];
      Take(Command(name));
      ok := Answered();
      if !ok {
        Stop();
      }
    }

    /** A listed master is not at the version. */
    ghost predicate Lags(names: seq<string>, version: string)
      reads this
    {
      exists n | n in names && n in masters :: masters[n].version != version
    }

    /** Helpers.WaitForNodeVersionReady with everyone else's moves between the polls: what a poll sees is what holds at
        that moment, so its observations cannot be laid down beforehand. There are at most 100, and fewer only when one
        shows the version or fails. When nobody else acts, it fails only for a master that is not at the version. */
    method WaitForVersion(inst: Object, i: nat) returns (ok: bool)
      requires Valid() && Stands(Waiting(inst, i)) && i < |inst.status.nodes|
      requires calm ==> inst.status.nodes[i] in masters
      modifies this
      ensures Valid() && old(acts) < acts && (calm ==> object' == old(object') && masters == old(masters))
      ensures ok ==> acts[|acts| - 1] == Observe(inst.status.nodes[i]) && Stands(Checking(inst, i + 1))
      ensures ok ==> fate == old(fate)
      ensures !ok ==> pass.None? && fate == HeldUp && (calm ==> Lags(inst.status.nodes, inst.version))
      ensures looks <= old(looks) + 100 && (!ok && calm ==> looks == old(looks) + 100)
    {
      for poll := 0 to 100
        invariant Valid() && old(acts) <= acts && Stands(Waiting(inst, i)) && fate == old(fate)
        invariant calm ==> object' == old(object') && masters == old(masters)
        invariant looks == old(looks) + poll
        invariant calm && poll > 0 ==> Lags(inst.status.nodes, inst.version)
      {
        Interleave();
        var node := GetNode(inst.status.nodes[i]);
        if node.Err? {
          GiveUp();
          return false;
        }
        if node.value.kubeletVersion == "v" + inst.version {
          assert node.value.kubeletVersion[1..] == inst.version == masters[inst.status.nodes[i]].version;
          Take(Observe(inst.status.nodes[i]));
          return true;
        }
        assert inst.status.nodes[i] in inst.status.nodes;
      }
      fate := HeldUp;
      GiveUp();
      return false;
    }

    method WaitForNodes(ghost inst: Object, lists: nat -> Result<seq<Helpers.Node>>) returns (ok: bool)
      requires Valid() && Stands(Awaiting(inst))
      modifies this`pass, this`acts, this`fate
      ensures Valid() && old(acts) < acts
      ensures ok <==> Helpers.EnoughInTime(lists, "azk-master-vmss", 3)
      ensures ok ==> fate == old(fate) && MastersListed(lists)
      ensures ok ==> Stands(Recording(
        inst.(status := inst.status.(version := inst.version, state := "Succeeded")), true))
      ensures !ok ==> pass.None? && fate == HeldUp
    {
      var err, _ := Helpers.WaitForNodesReady(lists, MASTERS, MASTER_COUNT);
      ok := err.None?;
      if ok {
        Take(NodesReady);
      } else {
        fate := HeldUp;
        GiveUp();
      }
    }
  }

  /** Commands one master and waits for it. */
  method CommandMaster(w: Plane, instance: Object, i: nat) returns (ok: bool)
    requires w.Valid() && w.Stands(Commanding(instance, i)) && i < |instance.status.nodes|
    requires w.calm ==> instance.status.nodes[i] in w.masters
    modifies w
    ensures w.Valid() && old(w.acts) < w.acts
    ensures w.calm ==> w.object' == old(w.object') && w.masters.Keys == old(w.masters.Keys)
    ensures ok ==> w.Stands(Checking(instance, i + 1)) && w.fate == old(w.fate)
    ensures ok ==> w.acts[|w.acts| - 1] == Observe(instance.status.nodes[i])
    ensures !ok ==> w.pass.None? && w.fate == HeldUp && (w.calm ==> w.Lags(instance.status.nodes, instance.version))
    ensures w.calm ==> old(w.acts) + [Command(instance.status.nodes[i])] <= w.acts
  {
    w.Interleave();
    ok := w.RunCommand(instance, i);
    if ok {
      ok := w.WaitForVersion(instance, i);
    }
  }

  /** The turn of one master: stepped over when it shows the version, otherwise commanded and waited for. */
  method UpgradeMaster(w: Plane, instance: Object, i: nat) returns (ok: bool)
    requires w.Valid() && w.Stands(Checking(instance, i)) && i < |instance.status.nodes|
    requires w.calm ==> instance.status.nodes[i] in w.masters
    modifies w
    ensures w.Valid() && old(w.acts) <= w.acts
    ensures w.calm ==> w.object' == old(w.object') && w.masters.Keys == old(w.masters.Keys)
    ensures ok ==> w.Stands(Checking(instance, i + 1)) && w.fate == old(w.fate)
    ensures ok ==> w.acts != [] && w.acts[|w.acts| - 1] in [Check, Observe(instance.status.nodes[i])]
    ensures !ok ==> w.pass.None? && w.fate == HeldUp && (w.calm ==> w.Lags(instance.status.nodes, instance.version))
    ensures w.calm ==>
      if old(w.masters[instance.status.nodes[i]].version) == instance.version then w.acts == old(w.acts) + [Check]
      else old(w.acts) + [Check] + [Command(instance.status.nodes[i])] <= w.acts
  {
    w.Interleave();
    var name := instance.status.nodes[i];
    var node := w.GetNode(name);
    var updated := Helpers.IsNodeUpdated(node, instance.version);
    if updated.Err? {
      w.GiveUp();
      return false;
    }
    if updated.value {
      assert node.value.kubeletVersion[1..] == instance.version == w.masters[name].version;
      w.TakeCheck(instance, i);
      return true;
    }
    w.TakeCheck(instance, i);
    ok := CommandMaster(w, instance, i);
  }

  /** The rolling upgrade: each listed master in turn; the first failure ends the pass. */
  method UpgradeVMSS(w: Plane, instance: Object) returns (ok: bool)
    requires w.Valid() && w.Stands(Checking(instance, 0))
    requires w.calm ==> Known(w.Here(), instance.status.nodes)
    modifies w
    ensures w.Valid() && old(w.acts) <= w.acts && (w.calm ==> w.object' == old(w.object'))
    ensures ok ==> w.Stands(Awaiting(instance)) && w.fate == old(w.fate)
    ensures !ok ==> w.pass.None? && w.fate == HeldUp && (w.calm ==> w.Lags(instance.status.nodes, instance.version))
  {
    for i := 0 to |instance.status.nodes|
      invariant w.Valid() && old(w.acts) <= w.acts && w.Stands(Checking(instance, i)) && w.fate == old(w.fate)
      invariant w.calm ==> w.object' == old(w.object') && Known(w.Here(), instance.status.nodes)
    {
      ok := UpgradeMaster(w, instance, i);
      if !ok {
        return;
      }
    }
    w.Take(Check);
    ok := true;
  }

  ghost predicate EndedInSuccess(w: Plane, version: string, lists: nat -> Result<seq<Helpers.Node>>)
    reads w
  {
    && w.acts != [] && w.acts[|w.acts| - 1] == Record
    && w.object'.status.state == "Succeeded" && w.object'.status.version == version && MastersListed(lists)
  }

  /** The answer goes with how the pass fared. When every call is answered and nobody else acts, only the wait for the
      nodes or a master that does not come to the version holds it up. */
  ghost predicate PlaneAnswers(w: Plane, r: Outcome, version: string, hashes: seq<string>,
                               lists: nat -> Result<seq<Helpers.Node>>)
    reads w
  {
    match w.fate
    case Well => r == Outcome(false, false) && hashes != [] && EndedInSuccess(w, version, lists)
    case HeldUp =>
      && r.failed
      && (w.calm ==> !Helpers.EnoughInTime(lists, "azk-master-vmss", 3) || w.Lags(w.object'.status.nodes, version))
    case InPanic(cause) => r == Outcome(false, false) && Explains(cause, w.calm, Some(3), hashes)
  }

  /** One pass. Its calls, with everyone else's moves in between, form a legal run, and it is over at the end. */
  method Reconcile(w: Plane, clusters: Option<seq<Cluster>>, lists: nat -> Result<seq<Helpers.Node>>)
      returns (r: Outcome)
    requires w.Valid() && w.pass.None?
    modifies w
    ensures w.Valid() && w.pass.None? && old(w.acts) < w.acts
    // At the wanted version already, nothing is called; nor without one cluster that succeeded.
    ensures old(w.object'.version == w.object'.status.version) ==>
      r == Outcome(false, false) && w.acts == old(w.acts) + [Start]
    ensures old(w.object'.version != w.object'.status.version) && !ReadyCluster(clusters) ==>
      && r == Outcome(true, !(clusters.Some? && |clusters.value| == 1))
      && w.acts == old(w.acts) + [Start, Abort]
    ensures old(w.object'.version != w.object'.status.version) && ReadyCluster(clusters) ==>
      PlaneAnswers(w, r, old(w.object'.version), clusters.value[0].discoveryHashes, lists)
  {
    var instance := w.Get();
    if instance.version == instance.status.version {
      return Outcome(false, false);
    }
    var cluster := w.GetCluster(clusters);
    if cluster.None? {
      w.GiveUp();
      return Outcome(true, true);
    }
    if cluster.value.provisioningState != "Succeeded" {
      w.GiveUp();
      return Outcome(true, false);
    }
    r := Work(w, instance, cluster.value.discoveryHashes, lists);
  }

  /** The pass of a control plane that is not at the wanted version. */
  method Work(w: Plane, found: Object, hashes: seq<string>, lists: nat -> Result<seq<Helpers.Node>>)
      returns (r: Outcome)
    requires w.Valid() && w.Stands(Listing(found)) && w.fate == Well && (w.calm ==> w.object'.rv == found.rv)
    modifies w
    ensures w.Valid() && w.pass.None? && old(w.acts) <= w.acts
    ensures PlaneAnswers(w, r, found.version, hashes, lists)
  {
    w.Interleave();
    var answer, names := w.ListMachines(found);
    if !answer.Works? {
      return Outcome(false, answer.Fails?);
    }
    var instance := found.(status := found.status.(nodes := names, state := UPDATING));
    w.Interleave();
    var stored := w.UpdateStatus(instance, false);
    if stored.None? {
      return Outcome(false, true);
    }
    r := Proceed(w, stored.value, hashes, lists);
  }

  /** The part of a pass behind the write of "Updating". */
  method Proceed(w: Plane, updating: Object, hashes: seq<string>, lists: nat -> Result<seq<Helpers.Node>>)
      returns (r: Outcome)
    requires w.Valid() && w.Stands(Provisioning(updating)) && w.fate == Well
    requires w.calm ==> w.object' == updating && Known(w.Here(), updating.status.nodes)
    modifies w
    ensures w.Valid() && w.pass.None? && old(w.acts) <= w.acts
    ensures PlaneAnswers(w, r, updating.version, hashes, lists)
  {
    var rendered := w.Render(hashes);
    if !rendered.Works? {
      return Outcome(rendered.Fails?, rendered.Fails?);
    }
    w.Interleave();
    var created := w.CreateVMSS(updating);
    if !created {
      return Outcome(false, true);
    }
    if updating.status.version != "" && updating.status.version != updating.version {
      var upgraded := UpgradeVMSS(w, updating);
      if !upgraded {
        return Outcome(false, true);
      }
    }
    r := Finish(w, updating, lists);
  }

  /** The wait for the masters and the write of "Succeeded". */
  method Finish(w: Plane, updating: Object, lists: nat -> Result<seq<Helpers.Node>>) returns (r: Outcome)
    requires w.Valid() && w.Stands(Awaiting(updating)) && w.fate == Well && (w.calm ==> w.object'.rv == updating.rv)
    modifies w
    ensures w.Valid() && w.pass.None? && old(w.acts) <= w.acts
    ensures w.fate == if r.failed then HeldUp else Well
    ensures w.calm ==> (r.failed <==> !Helpers.EnoughInTime(lists, "azk-master-vmss", 3))
    ensures !r.failed ==> !r.requeue && EndedInSuccess(w, updating.version, lists)
  {
    w.Interleave();
    var ready := w.WaitForNodes(updating, lists);
    if !ready {
      return Outcome(true, true);
    }
    var instance := updating.(status := updating.status.(version := updating.version, state := SUCCEEDED));
    w.Interleave();
    var stored := w.UpdateStatus(instance, true);
    return Outcome(false, stored.None?);
  }
}
