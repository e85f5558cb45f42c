/**
 The reconciliation protocol NodePool -> NodeSet -> scale set as a state machine.

 One state holds what the API server stores, what the cloud holds, and where each running pass of a reconciler
 stands. Every action is one call of a reconciler, or one move of the environment, so a run interleaves all of
 them freely. There is one pool; a node set has at most one pass at a time; a write that carries an old
 resource version is rejected; a write that changes nothing leaves the resource version alone.
 */
module Protocol {
  import opened Types
  import opened Naming
  import opened Helpers

  // ---------- Passes ----------

  /** What a NodeSet pass does after the status write it is about to issue. */
  datatype Next = ThenCreate | ThenScale | ThenDone

  /** A running pass of the NodeSet reconciler, named by the call it is about to issue. `inst` is the pass's own
      copy of the object, already changed to what will be written. */
  datatype Pass =
    | AddingFinalizer(inst: NodeSet)
    | DroppingScaleSet(inst: NodeSet)
    | RemovingFinalizer(inst: NodeSet)
    | Listing(inst: NodeSet)
    | Recording(inst: NodeSet, next: Next)
    | Creating(inst: NodeSet)
    | Scaling(inst: NodeSet, k: nat, drained: bool)
    | Awaiting(inst: NodeSet)

  /** The pass of the NodePool reconciler. */
  datatype PoolPass =
    | PoolIdle
    | Fetching(inst: NodePool)
    | CreatingSet(inst: NodePool)
    | Respecing(inst: NodePool, found: NodeSet)
    | ListingSets(inst: NodePool, found: NodeSet)
    | Collecting(inst: NodePool, found: NodeSet, left: seq<string>)
    | Mirroring(inst: NodePool, found: NodeSet)

  /** `cloud` is indexed by the node set whose scale set it is; Naming.ScaleSetNameInjective says that
      distinct node sets have distinct scale sets. `kubeconfig` is the cluster's, read by every pass. */
  datatype State = State(
    clock: nat,
    kubeconfig: string,
    pool: NodePool,
    nodeSets: map<string, NodeSet>,
    cloud: map<string, ScaleSet>,
    passes: map<string, Pass>,
    poolPass: PoolPass)

  /** Moves of the environment: users, other controllers and the cloud. Others put on and take off finalizers of
      their own; this controller's they leave alone. */
  datatype EnvMove =
    | SetPoolSpec(spec: NodeSetSpec)
    | ForeignCreate(name: string, newSpec: NodeSetSpec, finalizers: seq<string>)
    | ForeignRespec(name: string, newSpec: NodeSetSpec)
    | ForeignFinalizers(name: string, finalizers: seq<string>)
    | ForeignDelete(name: string)
    | Drift(name: string, after: Option<ScaleSet>)

  /** Calls of a NodeSet pass. `Abort` is a failing call, a panic or a crash at any point. */
  datatype PassMove =
    | Start
    | Abort
    | PutFinalizers
    | DropScaleSet(gone: bool)
    | ListVMs(answered: bool)
    | Record
    | CreateScaleSet(made: ScaleSet)
    | DrainVM(vm: VMStatus)
    | DeleteVM(vm: VMStatus, rest: ScaleSet)
    | Resize(made: ScaleSet)
    | NodesReady(version: string, count: int, nodes: seq<Node>)

  /** Calls of the NodePool pass. */
  datatype PoolMove =
    | PoolStart
    | PoolAbort
    | PoolFetch
    | PoolCreate
    | PoolRespec
    | PoolList(order: seq<string>)
    | PoolCollect
    | PoolMirror

  datatype Action = Env(e: EnvMove) | OfSet(set': string, move: PassMove) | OfPool(poolMove: PoolMove)

  // ---------- Writes ----------

  predicate Fresh(s: State, n: string, inst: NodeSet) {
    n in s.nodeSets && s.nodeSets[n].rv == inst.rv
  }

  /** Stores `next`, built from the stored object. An object marked for deletion goes with its last finalizer. */
  function Put(s: State, n: string, next: NodeSet): State
    requires n in s.nodeSets
  {
    if next == s.nodeSets[n] then s
    else if next.deleting && next.finalizers == [] then s.(nodeSets := s.nodeSets - {n}, clock := s.clock + 1)
    else s.(nodeSets := s.nodeSets[n := next.(rv := s.clock)], clock := s.clock + 1)
  }

  /** An update of the object proper: the status is a subresource and stays. */
  function Update(s: State, n: string, inst: NodeSet): State
    requires Fresh(s, n, inst)
  {
    Put(s, n, s.nodeSets[n].(spec := inst.spec, finalizers := inst.finalizers))
  }

  function UpdateStatus(s: State, n: string, inst: NodeSet): State
    requires Fresh(s, n, inst)
  {
    Put(s, n, s.nodeSets[n].(status := inst.status))
  }

  /** A delete call: with finalizers the object is only marked. */
  function Delete(s: State, n: string): State
    requires n in s.nodeSets
  {
    var cur := s.nodeSets[n];
    if cur.finalizers == [] then s.(nodeSets := s.nodeSets - {n}, clock := s.clock + 1)
    else Put(s, n, cur.(deleting := true))
  }

  function Add(s: State, n: string, spec: NodeSetSpec, finalizers: seq<string>): State {
    s.(nodeSets := s.nodeSets[n := NodeSet(s.clock, spec, EMPTY_STATUS, finalizers, false)], clock := s.clock + 1)
  }

  // ---------- The NodeSet reconciler ----------

  function Idle(s: State, n: string): State {
    s.(passes := s.passes - {n})
  }

  function At(s: State, n: string, p: Pass): State {
    s.(passes := s.passes[n := p])
  }

  predicate Wants(inst: NodeSet, count: int) {
    inst.spec.replicas == Some(count)
  }

  /** How many list entries the scale-down loop steps over. */
  function Kept(inst: NodeSet): nat
    requires inst.spec.replicas.Some?
  {
    var r := inst.spec.replicas.value;
    if r < 0 then 0 else if r > |inst.status.nodes| then |inst.status.nodes| else r
  }

  /** The first branch of a pass, on the object it read; `None` when there is nothing to do. */
  function Begin(o: NodeSet): Option<Pass> {
    if !o.deleting then
      if FINALIZER in o.finalizers then Some(Listing(o))
      else Some(AddingFinalizer(o.(finalizers := o.finalizers + [FINALIZER])))
    else if FINALIZER in o.finalizers then Some(DroppingScaleSet(o))
    else None
  }

  /** After a listing that worked; a nil replica count panics and ends the pass. */
  function AfterList(inst: NodeSet): Option<Pass> {
    if inst.spec.replicas.None? then None
    else if !Wants(inst, |inst.status.nodes|) then
      Some(Recording(inst.(status := inst.status.(state := SCALING)), ThenScale))
    else Some(Awaiting(inst))
  }

  function Succeeded(inst: NodeSet, kubeconfig: string): NodeSet {
    inst.(status := NodeSetStatus(
      |inst.status.nodes|, inst.spec.version, SUCCEEDED, kubeconfig, inst.status.nodes))
  }

  function Enter(s: State, n: string, p: Option<Pass>): State {
    if p.Some? then At(s, n, p.value) else Idle(s, n)
  }

  /** After the status write of a pass, with the write stored in `s`; a nil replica count panics. */
  function AfterRecord(s: State, n: string, next: Next): Option<Pass> {
    if n !in s.nodeSets then None
    else
      var inst := s.nodeSets[n];
      match next
      case ThenCreate => Some(Creating(inst))
      case ThenScale => if inst.spec.replicas.None? then None else Some(Scaling(inst, Kept(inst), false))
      case ThenDone => None
  }

  /** The spec asks for a number of machines that there can be. */
  predicate Possible(spec: NodeSetSpec) {
    spec.replicas.Some? && spec.replicas.value >= 0
  }

  // ---------- The NodePool reconciler ----------

  function Target(inst: NodePool): string {
    NodeSetName(inst.name, inst.spec.version)
  }

  function AfterFound(inst: NodePool, found: NodeSet): PoolPass {
    if inst.spec.replicas == Some(|found.status.nodes|) then ListingSets(inst, found) else Mirroring(inst, found)
  }

  function Mirror(name: string, st: NodeSetStatus): NodePoolStatus {
    NodePoolStatus(name, |st.nodes|, st.replicas, st.version, st.state)
  }

  // ---------- Steps of the environment ----------

  predicate EnvEnabled(s: State, e: EnvMove) {
    match e
    case SetPoolSpec(_) => true
    case ForeignCreate(n, _, _) => n !in s.nodeSets
    case ForeignRespec(n, _) => n in s.nodeSets
    case ForeignFinalizers(n, finalizers) =>
      n in s.nodeSets && (FINALIZER in finalizers <==> FINALIZER in s.nodeSets[n].finalizers)
    case ForeignDelete(n) => n in s.nodeSets
    case Drift(n, _) => n in s.cloud
  }

  function EnvStep(s: State, e: EnvMove): State
    requires EnvEnabled(s, e)
  {
    match e
    case SetPoolSpec(spec) => s.(pool := s.pool.(spec := spec, rv := s.clock), clock := s.clock + 1)
    case ForeignCreate(n, spec, finalizers) => Add(s, n, spec, finalizers)
    case ForeignRespec(n, spec) => Put(s, n, s.nodeSets[n].(spec := spec))
    case ForeignFinalizers(n, finalizers) => Put(s, n, s.nodeSets[n].(finalizers := finalizers))
    case ForeignDelete(n) => Delete(s, n)
    case Drift(n, after) => s.(cloud := if after.Some? then s.cloud[n := after.value] else s.cloud - {n})
  }

  // ---------- Steps of a NodeSet pass ----------

  predicate MoveEnabled(s: State, n: string, p: Pass, m: PassMove) {
    match m
    case Start => false
    case Abort => true
    case PutFinalizers => p.AddingFinalizer? || p.RemovingFinalizer?
    case DropScaleSet(_) => p.DroppingScaleSet?
    case ListVMs(_) => p.Listing?
    case Record => p.Recording?
    case CreateScaleSet(_) => p.Creating? && p.inst.spec.replicas.Some?
    case DrainVM(vm) =>
      || (p.Scaling? && !p.drained && p.k < |p.inst.status.nodes| && vm == p.inst.status.nodes[p.k])
      || (p.DroppingScaleSet? && vm in p.inst.status.nodes)
    case DeleteVM(vm, _) =>
      && n in s.cloud
      && p.Scaling? && p.drained && p.k < |p.inst.status.nodes| && vm == p.inst.status.nodes[p.k]
    case Resize(_) => n in s.cloud && p.Scaling? && p.k == |p.inst.status.nodes|
    case NodesReady(version, count, nodes) =>
      && p.Awaiting? && version == p.inst.spec.version && count == |p.inst.status.nodes|
      && p.inst.spec.replicas.Some? && CountReady(nodes, n) >= p.inst.spec.replicas.value
  }

  function MoveStep(s: State, n: string, p: Pass, m: PassMove): State
    requires MoveEnabled(s, n, p, m)
  {
    var inst := p.inst;
    match m
    case Abort => Idle(s, n)
    case PutFinalizers => Idle(if Fresh(s, n, inst) then Update(s, n, inst) else s, n)
    case DropScaleSet(gone) =>
      At(if gone then s.(cloud := s.cloud - {n}) else s, n,
         RemovingFinalizer(inst.(finalizers := Removed(inst.finalizers, FINALIZER))))
    case ListVMs(answered) =>
      if answered && n in s.cloud then
        Enter(s, n, AfterList(inst.(status := inst.status.(nodes := s.cloud[n].vms))))
      else At(s, n, Recording(inst.(status := inst.status.(state := UPDATING)), ThenCreate))
    case Record =>
      if Fresh(s, n, inst) then
        var s' := UpdateStatus(s, n, inst);
        Enter(s', n, AfterRecord(s', n, p.next))
      else Idle(s, n)
    case CreateScaleSet(made) => Idle(s.(cloud := s.cloud[n := made]), n)
    case DrainVM(_) => if p.Scaling? then At(s, n, p.(drained := true)) else s
    case DeleteVM(_, rest) => At(s.(cloud := s.cloud[n := rest]), n, p.(k := p.k + 1, drained := false))
    case Resize(made) =>
      Idle(if inst.spec.replicas == Some(s.cloud[n].capacity) then s
           else s.(cloud := s.cloud[n := made]), n)
    case NodesReady(_, _, _) => At(s, n, Recording(Succeeded(inst, s.kubeconfig), ThenDone))
  }

  function StartStep(s: State, n: string): State {
    if n in s.nodeSets then Enter(s, n, Begin(s.nodeSets[n])) else s
  }

  // ---------- Steps of the NodePool pass ----------

  /** A listing names every stored node set once, in any order. */
  ghost predicate ListsAll(s: State, order: seq<string>) {
    && (forall n :: n in order <==> n in s.nodeSets)
    && (forall i, j | 0 <= i < j < |order| :: order[i] != order[j])
  }

  ghost predicate PoolEnabled(s: State, m: PoolMove) {
    match m
    case PoolStart => s.poolPass.PoolIdle?
    case PoolAbort => !s.poolPass.PoolIdle?
    case PoolFetch => s.poolPass.Fetching?
    case PoolCreate => s.poolPass.CreatingSet?
    case PoolRespec => s.poolPass.Respecing?
    case PoolList(order) => s.poolPass.ListingSets? && ListsAll(s, order)
    case PoolCollect => s.poolPass.Collecting?
    case PoolMirror => s.poolPass.Mirroring?
  }

  function FetchedPass(s: State, inst: NodePool): PoolPass {
    var t := Target(inst);
    if t !in s.nodeSets then CreatingSet(inst)
    else if s.nodeSets[t].spec != inst.spec then Respecing(inst, s.nodeSets[t].(spec := inst.spec))
    else AfterFound(inst, s.nodeSets[t])
  }

  function RespecStep(s: State, inst: NodePool, found: NodeSet): State {
    var t := Target(inst);
    if !Fresh(s, t, found) then s.(poolPass := PoolIdle)
    else
      var s' := Update(s, t, found);
      s'.(poolPass := if t in s'.nodeSets then AfterFound(inst, s'.nodeSets[t]) else PoolIdle)
  }

  function CollectStep(s: State, inst: NodePool, found: NodeSet, left: seq<string>): State {
    if left == [] then s.(poolPass := Mirroring(inst, found))
    else if left[0] == Target(inst) then s.(poolPass := Collecting(inst, found, left[1..]))
    else if left[0] !in s.nodeSets then s.(poolPass := PoolIdle)
    else Delete(s, left[0]).(poolPass := Collecting(inst, found, left[1..]))
  }

  function MirrorStep(s: State, inst: NodePool, found: NodeSet): State {
    var status := Mirror(Target(inst), found.status);
    (if s.pool.rv != inst.rv || s.pool.status == status then s
     else s.(pool := s.pool.(status := status, rv := s.clock), clock := s.clock + 1)).(poolPass := PoolIdle)
  }

  function PoolStep(s: State, m: PoolMove): State
    requires PoolEnabled(s, m)
  {
    match m
    case PoolStart => s.(poolPass := Fetching(s.pool))
    case PoolAbort => s.(poolPass := PoolIdle)
    case PoolFetch => s.(poolPass := FetchedPass(s, s.poolPass.inst))
    case PoolCreate =>
      var inst := s.poolPass.inst;
      (if Target(inst) in s.nodeSets then s else Add(s, Target(inst), inst.spec, [])).(poolPass := PoolIdle)
    case PoolRespec => RespecStep(s, s.poolPass.inst, s.poolPass.found)
    case PoolList(order) => s.(poolPass := Collecting(s.poolPass.inst, s.poolPass.found, order))
    case PoolCollect => CollectStep(s, s.poolPass.inst, s.poolPass.found, s.poolPass.left)
    case PoolMirror => MirrorStep(s, s.poolPass.inst, s.poolPass.found)
  }

  // ---------- Steps ----------

  ghost predicate Enabled(s: State, a: Action) {
    match a
    case Env(e) => EnvEnabled(s, e)
    case OfSet(n, m) => if m.Start? then n !in s.passes else n in s.passes && MoveEnabled(s, n, s.passes[n], m)
    case OfPool(m) => PoolEnabled(s, m)
  }

  function Apply(s: State, a: Action): State
    requires Enabled(s, a)
  {
    match a
    case Env(e) => EnvStep(s, e)
    case OfSet(n, m) => if m.Start? then StartStep(s, n) else MoveStep(s, n, s.passes[n], m)
    case OfPool(m) => PoolStep(s, m)
  }

  /** From `s` to `s'` at most one object was stored, under the next resource version. */
  ghost predicate OneWrite(s: State, s': State) {
    && s.clock <= s'.clock
    && s'.kubeconfig == s.kubeconfig && s'.pool.name == s.pool.name
    && (forall m | m in s'.nodeSets ::
          (m in s.nodeSets && s'.nodeSets[m] == s.nodeSets[m])
          || (s'.nodeSets[m].rv == s.clock && s.clock < s'.clock
              && (s'.nodeSets[m].deleting ==> s'.nodeSets[m].finalizers != [])))
    && (s'.pool == s.pool || (s'.pool.rv == s.clock && s.clock < s'.clock))
  }

  /** A pass changes only its own pass, object and scale set. */
  ghost predicate OnlyOwn(s: State, s': State, n: string) {
    && s'.poolPass == s.poolPass && s'.pool == s.pool
    && (forall m | m != n :: m in s'.passes <==> m in s.passes)
    && (forall m | m != n && m in s.passes :: s'.passes[m] == s.passes[m])
    && (forall m | m != n :: m in s'.nodeSets <==> m in s.nodeSets)
    && (forall m | m != n && m in s.nodeSets :: s'.nodeSets[m] == s.nodeSets[m])
    && (forall m | m != n :: m in s'.cloud <==> m in s.cloud)
    && (forall m | m != n && m in s.cloud :: s'.cloud[m] == s.cloud[m])
  }

  /** The pool's pass and the environment leave the passes of node sets alone. */
  ghost predicate NoPassMoves(s: State, s': State) {
    s'.passes == s.passes
  }

  lemma PutShape(s: State, n: string, next: NodeSet)
    requires n in s.nodeSets
    ensures var s' := Put(s, n, next);
      OneWrite(s, s') && OnlyOwn(s, s', n) && NoPassMoves(s, s') && s'.cloud == s.cloud && s'.poolPass == s.poolPass
  {}

  lemma DeleteShape(s: State, n: string)
    requires n in s.nodeSets
    ensures var s' := Delete(s, n);
      OneWrite(s, s') && OnlyOwn(s, s', n) && NoPassMoves(s, s') && s'.cloud == s.cloud && s'.poolPass == s.poolPass
  {
    PutShape(s, n, s.nodeSets[n].(deleting := true));
  }

  lemma PutFinalizersShape(s: State, n: string, p: Pass)
    requires MoveEnabled(s, n, p, PutFinalizers)
    ensures OneWrite(s, MoveStep(s, n, p, PutFinalizers)) && OnlyOwn(s, MoveStep(s, n, p, PutFinalizers), n)
  {}

  lemma EnterShape(s: State, s': State, n: string, p: Option<Pass>)
    requires OneWrite(s, s') && OnlyOwn(s, s', n)
    ensures OneWrite(s, Enter(s', n, p)) && OnlyOwn(s, Enter(s', n, p), n)
  {}

  lemma RecordShape(s: State, n: string, p: Pass)
    requires MoveEnabled(s, n, p, Record)
    ensures OneWrite(s, MoveStep(s, n, p, Record)) && OnlyOwn(s, MoveStep(s, n, p, Record), n)
  {
    if Fresh(s, n, p.inst) {
      PutShape(s, n, s.nodeSets[n].(status := p.inst.status));
      var s' := UpdateStatus(s, n, p.inst);
      EnterShape(s, s', n, AfterRecord(s', n, p.next));
    }
  }

  lemma CloudMoveShape(s: State, n: string, p: Pass, m: PassMove)
    requires MoveEnabled(s, n, p, m)
    requires m.DropScaleSet? || m.CreateScaleSet? || m.DeleteVM? || m.Resize?
    ensures OneWrite(s, MoveStep(s, n, p, m)) && OnlyOwn(s, MoveStep(s, n, p, m), n)
  {}

  lemma LocalMoveShape(s: State, n: string, p: Pass, m: PassMove)
    requires MoveEnabled(s, n, p, m)
    requires m.Abort? || m.ListVMs? || m.DrainVM? || m.NodesReady?
    ensures OneWrite(s, MoveStep(s, n, p, m)) && OnlyOwn(s, MoveStep(s, n, p, m), n)
  {}

  lemma MoveShape(s: State, n: string, m: PassMove)
    requires Enabled(s, OfSet(n, m))
    ensures OneWrite(s, Apply(s, OfSet(n, m))) && OnlyOwn(s, Apply(s, OfSet(n, m)), n)
  {
    if m.Start? {
    } else if m.PutFinalizers? {
      PutFinalizersShape(s, n, s.passes[n]);
    } else if m.Record? {
      RecordShape(s, n, s.passes[n]);
    } else if m.DropScaleSet? || m.CreateScaleSet? || m.DeleteVM? || m.Resize? {
      CloudMoveShape(s, n, s.passes[n], m);
    } else {
      LocalMoveShape(s, n, s.passes[n], m);
    }
  }

  lemma RespecShape(s: State)
    requires PoolEnabled(s, PoolRespec)
    ensures var s' := PoolStep(s, PoolRespec); OneWrite(s, s') && NoPassMoves(s, s') && s'.cloud == s.cloud
  {}

  lemma CollectShape(s: State)
    requires PoolEnabled(s, PoolCollect)
    ensures var s' := PoolStep(s, PoolCollect); OneWrite(s, s') && NoPassMoves(s, s') && s'.cloud == s.cloud
  {
    var left := s.poolPass.left;
    if left != [] && left[0] != Target(s.poolPass.inst) && left[0] in s.nodeSets {
      DeleteShape(s, left[0]);
    }
  }

  lemma PoolShape(s: State, m: PoolMove)
    requires PoolEnabled(s, m)
    ensures var s' := PoolStep(s, m); OneWrite(s, s') && NoPassMoves(s, s') && s'.cloud == s.cloud
  {
    if m.PoolRespec? {
      RespecShape(s);
    } else if m.PoolCollect? {
      CollectShape(s);
    } else {
    }
  }

  lemma EnvShape(s: State, e: EnvMove)
    requires EnvEnabled(s, e)
    ensures var s' := EnvStep(s, e); OneWrite(s, s') && NoPassMoves(s, s') && s'.poolPass == s.poolPass
  {}

  // ---------- Runs ----------

  /** A legal run: every action is enabled where it is taken. */
  ghost predicate Run(s: State, acts: seq<Action>)
    decreases |acts|, 0
  {
    acts == [] || (Run(s, acts[..|acts| - 1]) && Enabled(After(s, acts[..|acts| - 1]), acts[|acts| - 1]))
  }

  ghost function After(s: State, acts: seq<Action>): State
    requires Run(s, acts)
    decreases |acts|, 1
  {
    if acts == [] then s else Apply(After(s, acts[..|acts| - 1]), acts[|acts| - 1])
  }

  lemma RunExtends(s: State, acts: seq<Action>, a: Action)
    requires Run(s, acts) && Enabled(After(s, acts), a)
    ensures Run(s, acts + [a]) && After(s, acts + [a]) == Apply(After(s, acts), a)
  {
    assert (acts + [a])[..|acts + [a]| - 1] == acts;
  }

  lemma {:induction false} RunPrefix(s: State, acts: seq<Action>, i: nat)
    requires Run(s, acts) && i <= |acts|
    ensures Run(s, acts[..i])
    ensures i < |acts| ==> Enabled(After(s, acts[..i]), acts[i])
    decreases |acts|
  {
    if i == |acts| {
      assert acts[..i] == acts;
    } else {
      var front := acts[..|acts| - 1];
      RunPrefix(s, front, i);
      assert front[..i] == acts[..i];
    }
  }

  lemma {:induction false} RunConcat(s: State, x: seq<Action>, y: seq<Action>)
    requires Run(s, x)
    ensures Run(s, x + y) <==> Run(After(s, x), y)
    ensures Run(s, x + y) ==> After(s, x + y) == After(After(s, x), y)
    decreases |y|
  {
    if y == [] {
      assert x + y == x;
    } else {
      RunConcat(s, x, y[..|y| - 1]);
      assert (x + y)[..|x + y| - 1] == x + y[..|y| - 1];
    }
  }

  /** Where every run begins: nothing created yet, no pass running. */
  predicate Initial(s: State) {
    && s.nodeSets == map[] && s.cloud == map[] && s.passes == map[] && s.poolPass.PoolIdle?
    && s.pool.rv < s.clock && s.pool.status == NodePoolStatus("", 0, 0, "", "")
  }
}
