/** How far one node set has come on its way to its own spec, when its calls work. */
module Stages {
  import opened Types
  import opened Protocol
  import opened Coherence

  // ---------- Calls that work ----------

  predicate FullSet(made: ScaleSet, inst: NodeSet) {
    made.capacity == |made.vms| && inst.spec.replicas == Some(|made.vms|)
  }

  /** A call that cannot work: on a scale set that is gone, or for an impossible number of machines. */
  predicate Hopeless(s: State, n: string, p: Pass) {
    (p.Scaling? && n !in s.cloud) || ((p.Scaling? || p.Creating?) && !Possible(p.inst.spec))
  }

  /** A call of a pass that does not fail without need. The cloud makes as many machines as asked for and counts
      those it has. */
  predicate CalmMove(s: State, n: string, m: PassMove) {
    match m
    case Abort => n in s.passes && Hopeless(s, n, s.passes[n])
    case DropScaleSet(gone) => gone
    case ListVMs(answered) => answered
    case CreateScaleSet(made) => n in s.passes && FullSet(made, s.passes[n].inst)
    case DeleteVM(_, rest) => rest.capacity == |rest.vms|
    case Resize(made) => n in s.passes && FullSet(made, s.passes[n].inst)
    case _ => true
  }

  ghost predicate Counted(s: State, n: string) {
    n in s.cloud ==> s.cloud[n].capacity == |s.cloud[n].vms|
  }

  // ---------- Stages ----------

  /** Stored, not marked for deletion, with a possible replica count. */
  ghost predicate Present(s: State, n: string) {
    n in s.nodeSets && !s.nodeSets[n].deleting && Possible(s.nodeSets[n].spec)
  }

  /** The object stays, and a running pass holds its current version. */
  ghost predicate UpToDate(s: State, n: string) {
    Present(s, n) && (n in s.passes ==> Fresh(s, n, s.passes[n].inst))
  }

  ghost predicate Finalized(s: State, n: string) {
    UpToDate(s, n) && FINALIZER in s.nodeSets[n].finalizers
  }

  /** The scale set has as many machines as the spec asks for, and no pass is about to scale it. */
  ghost predicate Provisioned(s: State, n: string) {
    && Finalized(s, n)
    && n in s.cloud && Wants(s.nodeSets[n], |s.cloud[n].vms|)
    && (n in s.passes ==>
        !s.passes[n].Scaling? && (s.passes[n].Recording? ==> !s.passes[n].next.ThenScale?))
  }

  function FinalStatus(spec: NodeSetSpec, vms: seq<VMStatus>, kubeconfig: string): NodeSetStatus {
    NodeSetStatus(|vms|, spec.version, SUCCEEDED, kubeconfig, vms)
  }

  /** A pass that will find everything in place. */
  predicate Confirms(p: Pass, vms: seq<VMStatus>, kubeconfig: string) {
    match p
    case Listing(_) => true
    case Awaiting(inst) => inst.status.nodes == vms
    case Recording(inst, ThenDone) => inst.status == FinalStatus(inst.spec, vms, kubeconfig)
    case _ => false
  }

  ghost predicate Recorded(s: State, n: string) {
    && Provisioned(s, n)
    && s.nodeSets[n].status == FinalStatus(s.nodeSets[n].spec, s.cloud[n].vms, s.kubeconfig)
    && (n in s.passes ==> Confirms(s.passes[n], s.cloud[n].vms, s.kubeconfig))
  }

  const LAST := 4

  ghost predicate AtStage(s: State, n: string, i: nat) {
    if i == 0 then Present(s, n)
    else if i == 1 then UpToDate(s, n)
    else if i == 2 then Finalized(s, n)
    else if i == 3 then Provisioned(s, n)
    else Recorded(s, n)
  }

  // ---------- Between two stages ----------

  ghost predicate BecomingFinalized(s: State, n: string) {
    UpToDate(s, n) && n in s.passes && s.passes[n].AddingFinalizer?
  }

  ghost predicate BecomingProvisioned(s: State, n: string) {
    && Finalized(s, n) && n in s.passes
    && match s.passes[n] {
      case Listing(_) => true
      case Recording(_, next) => next.ThenCreate? || (next.ThenScale? && n in s.cloud)
      case Creating(_) => true
      case Scaling(_, _, _) => n in s.cloud
      case _ => false
    }
  }

  ghost predicate BecomingRecorded(s: State, n: string) {
    Provisioned(s, n) && n in s.passes && Confirms(s.passes[n], s.cloud[n].vms, s.kubeconfig)
  }

  /** A pass that began in stage `i` is under way, or has already reached stage `i + 1`. */
  ghost predicate Underway(s: State, n: string, i: nat) {
    || AtStage(s, n, i + 1)
    || (i == 1 && BecomingFinalized(s, n))
    || (i == 2 && BecomingProvisioned(s, n))
    || (i == 3 && BecomingRecorded(s, n))
  }

  lemma UnderwayStart(s: State, n: string, i: nat)
    requires Coherent(s) && i < LAST && AtStage(s, n, i) && n !in s.passes
    ensures Underway(StartStep(s, n), n, i)
  {}

  lemma UnderwayEnd(s: State, n: string, i: nat)
    requires i < LAST && Underway(s, n, i) && n !in s.passes
    ensures AtStage(s, n, i + 1)
  {}

  lemma StartKeepsStage(s: State, n: string, i: nat)
    requires Coherent(s) && i <= LAST && AtStage(s, n, i) && n !in s.passes
    ensures AtStage(StartStep(s, n), n, i)
  {}

  lemma RecordKeepsStage(s: State, n: string, i: nat)
    requires Coherent(s) && i <= LAST && AtStage(s, n, i) && Enabled(s, OfSet(n, Record))
    ensures AtStage(MoveStep(s, n, s.passes[n], Record), n, i)
  {
    assert PassOk(s, n);
  }

  lemma PutKeepsStage(s: State, n: string, i: nat)
    requires Coherent(s) && i <= LAST && AtStage(s, n, i) && Enabled(s, OfSet(n, PutFinalizers))
    ensures AtStage(MoveStep(s, n, s.passes[n], PutFinalizers), n, i)
  {
    assert PassOk(s, n);
  }

  lemma CallKeepsStage(s: State, n: string, m: PassMove, i: nat)
    requires Coherent(s) && Counted(s, n) && i <= LAST && AtStage(s, n, i)
    requires Enabled(s, OfSet(n, m)) && CalmMove(s, n, m)
    requires !(m.Start? || m.Record? || m.PutFinalizers?)
    ensures AtStage(MoveStep(s, n, s.passes[n], m), n, i)
  {
    assert PassOk(s, n);
  }

  lemma RecordKeepsUnderway(s: State, n: string, i: nat)
    requires Coherent(s) && i < LAST && Underway(s, n, i) && Enabled(s, OfSet(n, Record))
    ensures Underway(MoveStep(s, n, s.passes[n], Record), n, i)
  {
    assert PassOk(s, n);
    if AtStage(s, n, i + 1) {
      RecordKeepsStage(s, n, i + 1);
    }
  }

  lemma PutKeepsUnderway(s: State, n: string, i: nat)
    requires Coherent(s) && i < LAST && Underway(s, n, i) && Enabled(s, OfSet(n, PutFinalizers))
    ensures Underway(MoveStep(s, n, s.passes[n], PutFinalizers), n, i)
  {
    assert PassOk(s, n);
    if AtStage(s, n, i + 1) {
      PutKeepsStage(s, n, i + 1);
    }
  }

  lemma CallKeepsUnderway(s: State, n: string, m: PassMove, i: nat)
    requires Coherent(s) && Counted(s, n) && i < LAST && Underway(s, n, i)
    requires Enabled(s, OfSet(n, m)) && CalmMove(s, n, m)
    requires !(m.Start? || m.Record? || m.PutFinalizers?)
    ensures Underway(MoveStep(s, n, s.passes[n], m), n, i)
  {
    assert PassOk(s, n);
    if AtStage(s, n, i + 1) {
      CallKeepsStage(s, n, m, i + 1);
    }
  }

  lemma OwnMoveCounted(s: State, n: string, m: PassMove)
    requires Counted(s, n) && Enabled(s, OfSet(n, m)) && CalmMove(s, n, m)
    ensures Counted(Apply(s, OfSet(n, m)), n)
  {}

  /** The node set's own calls keep its stage, and what is under way. */
  lemma OwnMoveKeeps(s: State, n: string, m: PassMove, i: nat)
    requires Coherent(s) && Counted(s, n) && Enabled(s, OfSet(n, m)) && CalmMove(s, n, m)
    ensures i <= LAST && AtStage(s, n, i) ==> AtStage(Apply(s, OfSet(n, m)), n, i)
    ensures i < LAST && Underway(s, n, i) ==> Underway(Apply(s, OfSet(n, m)), n, i)
    ensures Counted(Apply(s, OfSet(n, m)), n)
  {
    OwnMoveCounted(s, n, m);
    if m.Start? {
      if i <= LAST && AtStage(s, n, i) { StartKeepsStage(s, n, i); }
      if i < LAST && Underway(s, n, i) {
        UnderwayEnd(s, n, i);
        StartKeepsStage(s, n, i + 1);
      }
    } else if m.Record? {
      if i <= LAST && AtStage(s, n, i) { RecordKeepsStage(s, n, i); }
      if i < LAST && Underway(s, n, i) { RecordKeepsUnderway(s, n, i); }
    } else if m.PutFinalizers? {
      if i <= LAST && AtStage(s, n, i) { PutKeepsStage(s, n, i); }
      if i < LAST && Underway(s, n, i) { PutKeepsUnderway(s, n, i); }
    } else {
      if i <= LAST && AtStage(s, n, i) { CallKeepsStage(s, n, m, i); }
      if i < LAST && Underway(s, n, i) { CallKeepsUnderway(s, n, m, i); }
    }
  }

  /** The step leaves the object, the scale set and the pass of `n` alone. */
  ghost predicate Untouched(s: State, s': State, n: string) {
    && s'.kubeconfig == s.kubeconfig
    && (n in s'.nodeSets <==> n in s.nodeSets) && (n in s.nodeSets ==> s'.nodeSets[n] == s.nodeSets[n])
    && (n in s'.cloud <==> n in s.cloud) && (n in s.cloud ==> s'.cloud[n] == s.cloud[n])
    && (n in s'.passes <==> n in s.passes) && (n in s.passes ==> s'.passes[n] == s.passes[n])
  }

  lemma UntouchedKeeps(s: State, s': State, n: string, i: nat)
    requires Untouched(s, s', n)
    ensures AtStage(s, n, i) ==> AtStage(s', n, i)
    ensures Underway(s, n, i) ==> Underway(s', n, i)
  {}

  /** In the last stage no pass calls the cloud except to list. */
  lemma RecordedCallsNothing(s: State, n: string, m: PassMove)
    requires Coherent(s) && Recorded(s, n) && Enabled(s, OfSet(n, m)) && CalmMove(s, n, m)
    ensures m.Start? || m.ListVMs? || m.NodesReady? || m.Record?
    ensures var s' := Apply(s, OfSet(n, m));
      s'.nodeSets == s.nodeSets && s'.cloud == s.cloud && s'.clock == s.clock
  {
    assert PassOk(s, n);
    if m.Record? {
      assert s.nodeSets[n].(status := s.passes[n].inst.status) == s.nodeSets[n];
    }
  }

  // ---------- Three passes ----------

  /** A run that leaves `n` to its own reconciler, whose calls work. Anything may happen to other objects. */
  ghost predicate LeftAlone(s: State, a: Action, n: string)
    requires Enabled(s, a)
  {
    if a.OfSet? && a.set' == n then CalmMove(s, n, a.move) else Untouched(s, Apply(s, a), n)
  }

  ghost predicate LeftAloneRun(s: State, acts: seq<Action>, n: string)
    requires Run(s, acts)
    decreases |acts|
  {
    acts != [] ==>
      LeftAloneRun(s, acts[..|acts| - 1], n) && LeftAlone(After(s, acts[..|acts| - 1]), acts[|acts| - 1], n)
  }

  ghost predicate Begun(acts: seq<Action>, n: string) {
    acts != [] && (Begun(acts[..|acts| - 1], n) || acts[|acts| - 1] == OfSet(n, Start))
  }

  /** A pass of `n` began and ended within the run. */
  ghost predicate Passed(s: State, acts: seq<Action>, n: string)
    requires Run(s, acts)
    decreases |acts|
  {
    acts != [] && (Passed(s, acts[..|acts| - 1], n) || (Begun(acts, n) && n !in After(s, acts).passes))
  }

  lemma LeftAloneStep(s: State, a: Action, n: string, i: nat)
    requires Coherent(s) && Counted(s, n) && Enabled(s, a) && LeftAlone(s, a, n) && i < LAST
    ensures Counted(Apply(s, a), n)
    ensures AtStage(s, n, i) ==> AtStage(Apply(s, a), n, i)
    ensures AtStage(s, n, i + 1) ==> AtStage(Apply(s, a), n, i + 1)
    ensures Underway(s, n, i) ==> Underway(Apply(s, a), n, i)
    ensures AtStage(s, n, i) && a == OfSet(n, Start) ==> Underway(Apply(s, a), n, i)
  {
    if a.OfSet? && a.set' == n {
      OwnMoveKeeps(s, n, a.move, i);
      OwnMoveKeeps(s, n, a.move, i + 1);
      if a.move.Start? && AtStage(s, n, i) { UnderwayStart(s, n, i); }
    } else {
      UntouchedKeeps(s, Apply(s, a), n, i);
      UntouchedKeeps(s, Apply(s, a), n, i + 1);
    }
  }

  lemma {:induction false} PassAdvances(s: State, acts: seq<Action>, n: string, i: nat)
    requires Coherent(s) && Counted(s, n) && i < LAST && AtStage(s, n, i)
    requires Run(s, acts) && LeftAloneRun(s, acts, n)
    ensures Coherent(After(s, acts)) && Counted(After(s, acts), n) && AtStage(After(s, acts), n, i)
    ensures Begun(acts, n) ==> Underway(After(s, acts), n, i)
    ensures Passed(s, acts, n) ==> AtStage(After(s, acts), n, i + 1)
    decreases |acts|
  {
    if acts != [] {
      var front, a := acts[..|acts| - 1], acts[|acts| - 1];
      PassAdvances(s, front, n, i);
      CoherentStep(After(s, front), a);
      LeftAloneStep(After(s, front), a, n, i);
      if n !in After(s, acts).passes && Underway(After(s, acts), n, i) {
        UnderwayEnd(After(s, acts), n, i);
      }
    }
  }

  /** From any state of a live node set with no pass running: one pass sees to the finalizer, one to the scale
      set, one confirms. From then on its passes issue no call that changes anything. */
  lemma SettlesInThreePasses(s: State, x: seq<Action>, y: seq<Action>, z: seq<Action>, n: string)
    requires Coherent(s) && Counted(s, n) && Present(s, n) && n !in s.passes
    requires Run(s, x) && LeftAloneRun(s, x, n) && Passed(s, x, n)
    requires Run(After(s, x), y) && LeftAloneRun(After(s, x), y, n) && Passed(After(s, x), y, n)
    requires Run(After(After(s, x), y), z) && LeftAloneRun(After(After(s, x), y), z, n)
    requires Passed(After(After(s, x), y), z, n)
    ensures Run(s, x + y + z) && Recorded(After(s, x + y + z), n)
    ensures var end := After(s, x + y + z);
      forall m | Enabled(end, OfSet(n, m)) && CalmMove(end, n, m) ::
        m.Start? || m.ListVMs? || m.NodesReady? || m.Record?
  {
    PassAdvances(s, x, n, 1);
    PassAdvances(After(s, x), y, n, 2);
    PassAdvances(After(After(s, x), y), z, n, 3);
    RunConcat(s, x, y);
    RunConcat(s, x + y, z);
    var end := After(s, x + y + z);
    forall m | Enabled(end, OfSet(n, m)) && CalmMove(end, n, m)
      ensures m.Start? || m.ListVMs? || m.NodesReady? || m.Record?
    {
      RecordedCallsNothing(end, n, m);
    }
  }
}
