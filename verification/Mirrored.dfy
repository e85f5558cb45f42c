/** What a pool shows is what its named node set had stored. */
module Mirrored {
  import opened Types
  import opened Protocol
  import opened Coherence

  /** A status stored under a name. */
  datatype Stored = Stored(name: string, status: NodeSetStatus)

  ghost function StoredIn(s: State): iset<Stored> {
    iset n | n in s.nodeSets :: Stored(n, s.nodeSets[n].status)
  }

  /** Every status that some state of the run had stored. */
  ghost function EverStored(s: State, acts: seq<Action>): iset<Stored>
    requires Run(s, acts)
    decreases |acts|
  {
    (if acts == [] then iset{} else EverStored(s, acts[..|acts| - 1])) + StoredIn(After(s, acts))
  }

  ghost predicate ShownFrom(shown: NodePoolStatus, from: Stored) {
    && shown.nodeSetName == from.name && shown.vmReplicas == |from.status.nodes|
    && shown.replicas == from.status.replicas && shown.version == from.status.version
    && shown.state == from.status.state
  }

  /** What the pool's pass carries, and what the pool shows, is among `stored`. */
  ghost predicate Traced(s: State, stored: iset<Stored>) {
    && StoredIn(s) <= stored
    && (HasFound(s.poolPass) ==> Stored(Target(s.poolPass.inst), s.poolPass.found.status) in stored)
    && (s.pool.status == NodePoolStatus("", 0, 0, "", "") || exists from :: from in stored && ShownFrom(s.pool.status, from))
  }

  lemma MirrorTraced(s: State, stored: iset<Stored>)
    requires Traced(s, stored) && PoolEnabled(s, PoolMirror)
    ensures Traced(PoolStep(s, PoolMirror), stored)
  {
    assert ShownFrom(Mirror(Target(s.poolPass.inst), s.poolPass.found.status),
                     Stored(Target(s.poolPass.inst), s.poolPass.found.status));
  }

  lemma FetchTraced(s: State, stored: iset<Stored>)
    requires Traced(s, stored) && PoolEnabled(s, PoolFetch)
    ensures Traced(PoolStep(s, PoolFetch), stored)
  {
    var t := Target(s.poolPass.inst);
    assert t in s.nodeSets ==> Stored(t, s.nodeSets[t].status) in StoredIn(s);
  }

  lemma RespecTraced(s: State, stored: iset<Stored>)
    requires Coherent(s) && Traced(s, stored) && PoolEnabled(s, PoolRespec)
    ensures var s' := PoolStep(s, PoolRespec); Traced(s', stored + StoredIn(s'))
  {
    var s' := PoolStep(s, PoolRespec);
    var t := Target(s.poolPass.inst);
    assert t in s'.nodeSets ==> Stored(t, s'.nodeSets[t].status) in StoredIn(s');
  }

  lemma CollectTraced(s: State, stored: iset<Stored>)
    requires Traced(s, stored) && PoolEnabled(s, PoolCollect)
    ensures var s' := PoolStep(s, PoolCollect); Traced(s', stored + StoredIn(s'))
  {}

  lemma PoolTraced(s: State, m: PoolMove, stored: iset<Stored>)
    requires Coherent(s) && Traced(s, stored) && PoolEnabled(s, m)
    ensures var s' := PoolStep(s, m); Traced(s', stored + StoredIn(s'))
  {
    match m
    case PoolMirror =>
      MirrorTraced(s, stored);
    case PoolFetch =>
      FetchTraced(s, stored);
    case PoolRespec =>
      RespecTraced(s, stored);
    case PoolCollect =>
      CollectTraced(s, stored);
    case _ =>
  }

  lemma OtherTraced(s: State, s': State, stored: iset<Stored>)
    requires Traced(s, stored) && s'.poolPass == s.poolPass && s'.pool.status == s.pool.status
    ensures Traced(s', stored + StoredIn(s'))
  {}

  lemma TracedStep(s: State, a: Action, stored: iset<Stored>)
    requires Coherent(s) && Traced(s, stored) && Enabled(s, a)
    ensures var s' := Apply(s, a); Traced(s', stored + StoredIn(s'))
  {
    match a
    case Env(e) =>
      EnvShape(s, e);
      OtherTraced(s, Apply(s, a), stored);
    case OfSet(n, m) =>
      MoveShape(s, n, m);
      OtherTraced(s, Apply(s, a), stored);
    case OfPool(m) =>
      PoolTraced(s, m, stored);
  }

  lemma {:induction false} TracedRun(s: State, acts: seq<Action>)
    requires Initial(s) && Run(s, acts)
    ensures Coherent(After(s, acts)) && Traced(After(s, acts), EverStored(s, acts))
    decreases |acts|
  {
    if acts != [] {
      var front := acts[..|acts| - 1];
      TracedRun(s, front);
      CoherentStep(After(s, front), acts[|acts| - 1]);
      TracedStep(After(s, front), acts[|acts| - 1], EverStored(s, front));
    }
  }

  /** The first `i` steps of the run lead to a state that has `shown` stored, at its name. */
  ghost predicate StoredThen(s: State, acts: seq<Action>, i: nat, shown: NodePoolStatus)
    requires Run(s, acts)
  {
    && i <= |acts|
    && (RunPrefix(s, acts, i);
        var sets := After(s, acts[..i]).nodeSets;
        shown.nodeSetName in sets && ShownFrom(shown, Stored(shown.nodeSetName, sets[shown.nodeSetName].status)))
  }

  lemma {:induction false} EverMeansOnce(s: State, acts: seq<Action>, shown: NodePoolStatus, from: Stored)
    requires Run(s, acts) && from in EverStored(s, acts) && ShownFrom(shown, from)
    ensures exists i: nat :: StoredThen(s, acts, i, shown)
    decreases |acts|
  {
    if from in StoredIn(After(s, acts)) {
      assert acts[..|acts|] == acts;
      assert StoredThen(s, acts, |acts|, shown);
    } else {
      var front := acts[..|acts| - 1];
      EverMeansOnce(s, front, shown, from);
      var i: nat :| StoredThen(s, front, i, shown);
      assert front[..i] == acts[..i];
      assert StoredThen(s, acts, i, shown);
    }
  }

  /** In every run from the start, whatever the state of the rollout: what a pool shows was, at one time, the stored
      status of the node set that it names, with the number of listed machines as its machine count. */
  lemma ShownWasStored(s: State, acts: seq<Action>)
    requires Initial(s) && Run(s, acts)
    ensures var shown := After(s, acts).pool.status;
      shown == NodePoolStatus("", 0, 0, "", "") || exists i: nat :: StoredThen(s, acts, i, shown)
  {
    TracedRun(s, acts);
    var shown := After(s, acts).pool.status;
    if shown != NodePoolStatus("", 0, 0, "", "") {
      var from :| from in EverStored(s, acts) && ShownFrom(shown, from);
      EverMeansOnce(s, acts, shown, from);
    }
  }
}
