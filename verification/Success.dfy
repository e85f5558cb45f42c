/** What a reported success means, from the machines of the cloud up to the status the command line reads. */
module Success {
  import opened Types
  import opened Helpers
  import opened Protocol
  import opened Coherence

  // ---------- Evidence in a run ----------

  /** Step `i` of the run is a listing by a pass of `name` that the cloud answered with `count` machines. */
  ghost predicate ListedAt(s: State, acts: seq<Action>, i: nat, name: string, count: int)
    requires Run(s, acts)
  {
    && i < |acts| && acts[i] == OfSet(name, ListVMs(true))
    && (RunPrefix(s, acts, i); var here := After(s, acts[..i]);
        name in here.cloud && |here.cloud[name].vms| == count)
  }

  ghost predicate Listed(s: State, acts: seq<Action>, name: string, count: int)
    requires Run(s, acts)
  {
    exists i: nat :: ListedAt(s, acts, i, name, count)
  }

  /** Step `i` is a wait for nodes that ended well: a pass of node set `name` on spec version `version` saw, in one
      node list, at least `count` of its nodes, after the cloud had listed `count` machines for it. */
  ghost predicate ProvenAt(s: State, acts: seq<Action>, i: nat, name: string, version: string, count: int)
    requires Run(s, acts)
  {
    && i < |acts| && acts[i].OfSet? && acts[i].set' == name && acts[i].move.NodesReady?
    && acts[i].move.version == version && acts[i].move.count == count
    && CountReady(acts[i].move.nodes, name) >= count
    && (RunPrefix(s, acts, i); Listed(s, acts[..i], name, count))
  }

  ghost predicate Proven(s: State, acts: seq<Action>, name: string, version: string, count: int)
    requires Run(s, acts)
  {
    exists i: nat :: ProvenAt(s, acts, i, name, version, count)
  }

  // ---------- The invariant, relative to collected evidence ----------

  /** `listed` holds node sets with a machine count, `proven` node sets with a version and a count. */
  datatype Evidence = Evidence(listed: iset<(string, int)>, proven: iset<(string, string, int)>)

  ghost predicate StatusOk(st: NodeSetStatus, n: string, e: Evidence) {
    st.state == SUCCEEDED ==> st.replicas == |st.nodes| && (n, st.version, |st.nodes|) in e.proven
  }

  ghost predicate PassProven(p: Pass, n: string, e: Evidence) {
    match p
    case Awaiting(inst) => (n, |inst.status.nodes|) in e.listed
    case Recording(inst, _) => StatusOk(inst.status, n, e)
    case _ => true
  }

  ghost predicate Justified(s: State, e: Evidence) {
    && (forall n | n in s.nodeSets :: StatusOk(s.nodeSets[n].status, n, e))
    && (forall n | n in s.passes :: PassProven(s.passes[n], n, e))
    && (HasFound(s.poolPass) ==> StatusOk(s.poolPass.found.status, Target(s.poolPass.inst), e))
    && (s.pool.status.state == SUCCEEDED ==>
        s.pool.status.vmReplicas == s.pool.status.replicas
        && (s.pool.status.nodeSetName, s.pool.status.version, s.pool.status.vmReplicas) in e.proven)
  }

  ghost function Gained(s: State, a: Action, e: Evidence): Evidence
    requires Enabled(s, a)
  {
    if !a.OfSet? then e
    else match a.move
      case ListVMs(answered) =>
        if answered && a.set' in s.cloud then e.(listed := e.listed + iset{(a.set', |s.cloud[a.set'].vms|)}) else e
      case NodesReady(version, count, _) => e.(proven := e.proven + iset{(a.set', version, count)})
      case _ => e
  }

  lemma RecordJustified(s: State, n: string, e: Evidence)
    requires Coherent(s) && Justified(s, e) && Enabled(s, OfSet(n, Record))
    ensures var s' := Apply(s, OfSet(n, Record));
      && (n in s'.nodeSets ==> StatusOk(s'.nodeSets[n].status, n, e))
      && (n in s'.passes ==> PassProven(s'.passes[n], n, e))
  {}

  lemma MoveJustified(s: State, n: string, m: PassMove, e: Evidence)
    requires Coherent(s) && Justified(s, e) && Enabled(s, OfSet(n, m))
    ensures var s', e' := Apply(s, OfSet(n, m)), Gained(s, OfSet(n, m), e);
      && (n in s'.nodeSets ==> StatusOk(s'.nodeSets[n].status, n, e'))
      && (n in s'.passes ==> PassProven(s'.passes[n], n, e'))
  {
    assert PassOk(s, n);
    if m.Record? {
      RecordJustified(s, n, e);
    }
  }

  lemma RespecJustified(s: State, e: Evidence)
    requires Coherent(s) && Justified(s, e) && PoolEnabled(s, PoolRespec)
    ensures Justified(PoolStep(s, PoolRespec), e)
  {}

  lemma CollectJustified(s: State, e: Evidence)
    requires Coherent(s) && Justified(s, e) && PoolEnabled(s, PoolCollect)
    ensures Justified(PoolStep(s, PoolCollect), e)
  {}

  lemma PoolJustified(s: State, m: PoolMove, e: Evidence)
    requires Coherent(s) && Justified(s, e) && PoolEnabled(s, m)
    ensures Justified(PoolStep(s, m), e)
  {
    if m.PoolRespec? {
      RespecJustified(s, e);
    } else if m.PoolCollect? {
      CollectJustified(s, e);
    }
  }

  lemma EnvJustified(s: State, v: EnvMove, e: Evidence)
    requires Coherent(s) && Justified(s, e) && EnvEnabled(s, v)
    ensures Justified(EnvStep(s, v), e)
  {}

  lemma OwnMoveJustified(s: State, s': State, n: string, e: Evidence, e': Evidence)
    requires Justified(s, e) && OnlyOwn(s, s', n) && e.listed <= e'.listed && e.proven <= e'.proven
    requires n in s'.nodeSets ==> StatusOk(s'.nodeSets[n].status, n, e')
    requires n in s'.passes ==> PassProven(s'.passes[n], n, e')
    ensures Justified(s', e')
  {}

  lemma JustifiedStep(s: State, a: Action, e: Evidence)
    requires Coherent(s) && Justified(s, e) && Enabled(s, a)
    ensures Justified(Apply(s, a), Gained(s, a, e))
  {
    match a
    case Env(v) => EnvJustified(s, v, e);
    case OfPool(m) => PoolJustified(s, m, e);
    case OfSet(n, m) =>
      MoveShape(s, n, m);
      MoveJustified(s, n, m, e);
      OwnMoveJustified(s, Apply(s, a), n, e, Gained(s, a, e));
  }

  // ---------- Evidence collected along a run is in the run ----------

  ghost function Collected(s: State, acts: seq<Action>): Evidence
    requires Run(s, acts)
  {
    Evidence(iset n, c | Listed(s, acts, n, c) :: (n, c),
      iset n, v, c | Proven(s, acts, n, v, c) :: (n, v, c))
  }

  lemma ListedGrows(s: State, acts: seq<Action>, a: Action, n: string, c: int)
    requires Run(s, acts) && Run(s, acts + [a]) && Listed(s, acts, n, c)
    ensures Listed(s, acts + [a], n, c)
  {
    var i: nat :| ListedAt(s, acts, i, n, c);
    assert (acts + [a])[..i] == acts[..i];
    assert ListedAt(s, acts + [a], i, n, c);
  }

  lemma ProvenGrows(s: State, acts: seq<Action>, a: Action, n: string, v: string, c: int)
    requires Run(s, acts) && Run(s, acts + [a]) && Proven(s, acts, n, v, c)
    ensures Proven(s, acts + [a], n, v, c)
  {
    var i: nat :| ProvenAt(s, acts, i, n, v, c);
    assert (acts + [a])[..i] == acts[..i];
    assert ProvenAt(s, acts + [a], i, n, v, c);
  }

  lemma NewlyListed(s: State, acts: seq<Action>, n: string)
    requires Run(s, acts) && Enabled(After(s, acts), OfSet(n, ListVMs(true))) && n in After(s, acts).cloud
    ensures (RunExtends(s, acts, OfSet(n, ListVMs(true)));
             Listed(s, acts + [OfSet(n, ListVMs(true))], n, |After(s, acts).cloud[n].vms|))
  {
    var all := acts + [OfSet(n, ListVMs(true))];
    RunExtends(s, acts, OfSet(n, ListVMs(true)));
    assert all[..|acts|] == acts;
    assert ListedAt(s, all, |acts|, n, |After(s, acts).cloud[n].vms|);
  }

  lemma NewlyProven(s: State, acts: seq<Action>, a: Action)
    requires Run(s, acts) && Enabled(After(s, acts), a) && a.OfSet? && a.move.NodesReady?
    requires Coherent(After(s, acts)) && Listed(s, acts, a.set', a.move.count)
    ensures (RunExtends(s, acts, a); Proven(s, acts + [a], a.set', a.move.version, a.move.count))
  {
    RunExtends(s, acts, a);
    assert PassOk(After(s, acts), a.set');
    assert (acts + [a])[..|acts|] == acts;
    assert ProvenAt(s, acts + [a], |acts|, a.set', a.move.version, a.move.count);
  }

  lemma CollectedGrows(s: State, acts: seq<Action>, a: Action)
    requires Run(s, acts) && Run(s, acts + [a]) && Enabled(After(s, acts), a)
    requires Coherent(After(s, acts)) && Justified(After(s, acts), Collected(s, acts))
    ensures var e, e' := Gained(After(s, acts), a, Collected(s, acts)), Collected(s, acts + [a]);
      e.listed <= e'.listed && e.proven <= e'.proven
  {
    forall n, c | Listed(s, acts, n, c) ensures Listed(s, acts + [a], n, c) {
      ListedGrows(s, acts, a, n, c);
    }
    forall n, v, c | Proven(s, acts, n, v, c) ensures Proven(s, acts + [a], n, v, c) {
      ProvenGrows(s, acts, a, n, v, c);
    }
    if a.OfSet? && a.move == ListVMs(true) && a.set' in After(s, acts).cloud {
      NewlyListed(s, acts, a.set');
    }
    if a.OfSet? && a.move.NodesReady? {
      assert PassProven(After(s, acts).passes[a.set'], a.set', Collected(s, acts));
      NewlyProven(s, acts, a);
    }
  }

  lemma JustifiedWithMore(s: State, e: Evidence, e': Evidence)
    requires Justified(s, e) && e.listed <= e'.listed && e.proven <= e'.proven
    ensures Justified(s, e')
  {}

  lemma {:induction false} JustifiedRun(s: State, acts: seq<Action>)
    requires Initial(s) && Run(s, acts)
    ensures Coherent(After(s, acts)) && Justified(After(s, acts), Collected(s, acts))
    decreases |acts|
  {
    if acts != [] {
      var front, a := acts[..|acts| - 1], acts[|acts| - 1];
      assert front + [a] == acts;
      JustifiedRun(s, front);
      var here, e := After(s, front), Collected(s, front);
      CoherentStep(here, a);
      JustifiedStep(here, a, e);
      CollectedGrows(s, front, a);
      JustifiedWithMore(After(s, acts), Gained(here, a, e), Collected(s, acts));
    }
  }

  // ---------- What the command line reports ----------

  predicate UpgradeReported(st: NodePoolStatus, version: string) {
    st.state == "Succeeded" && st.version == version
  }

  predicate ScaleReported(st: NodePoolStatus, count: int) {
    st.state == "Succeeded" && st.vmReplicas == count
  }

  /** A pool status that reads Succeeded counts the machines it lists, and the node set that it names, on its version,
      listed that many machines in the cloud and then saw that many of its nodes in one node list. */
  lemma ReportedSuccessHappened(s: State, acts: seq<Action>)
    requires Initial(s) && Run(s, acts) && After(s, acts).pool.status.state == "Succeeded"
    ensures var st := After(s, acts).pool.status;
      st.vmReplicas == st.replicas && Proven(s, acts, st.nodeSetName, st.version, st.vmReplicas)
  {
    JustifiedRun(s, acts);
  }

  lemma CommandLineSuccessHappened(s: State, acts: seq<Action>, version: string, count: int)
    requires Initial(s) && Run(s, acts)
    ensures var st := After(s, acts).pool.status;
      UpgradeReported(st, version) ==> Proven(s, acts, st.nodeSetName, version, st.vmReplicas)
    ensures var st := After(s, acts).pool.status;
      ScaleReported(st, count) ==> Proven(s, acts, st.nodeSetName, st.version, count)
  {
    JustifiedRun(s, acts);
  }
}
