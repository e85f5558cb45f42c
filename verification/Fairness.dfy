/**
 Calm runs never get stuck: whatever passes are in flight, each can be brought to its end by calls that work, so
 every calm run extends by a round, and the converged state can be reached from everywhere.
 */
module Fairness {
  import opened Types
  import opened Helpers
  import opened Protocol
  import opened Coherence
  import opened Rollout
  import opened Stages
  import opened Convergence
  import opened Cleanup
  import opened Rounds

  /** A bound on the calls a pass still issues when nobody else moves. */
  function Weight(s: State, n: string): nat
    requires n in s.passes
  {
    match s.passes[n]
    case Listing(_) => if n in s.cloud then 2 * |s.cloud[n].vms| + 4 else 4
    case Recording(inst, ThenScale) => 2 * |inst.status.nodes| + 3
    case Recording(_, ThenCreate) => 2
    case Scaling(inst, k, drained) =>
      if k >= |inst.status.nodes| then 1 else 2 * (|inst.status.nodes| - k) + (if drained then 1 else 2)
    case Awaiting(_) => 2
    case DroppingScaleSet(_) => 2
    case _ => 1
  }

  /** The call comes nearer to the end of the pass. */
  ghost predicate Advances(s: State, n: string, m: PassMove) {
    && n in s.passes && Enabled(s, OfSet(n, m)) && Calm(s, OfSet(n, m))
    && var s' := Apply(s, OfSet(n, m)); n in s'.passes ==> Weight(s', n) < Weight(s, n)
  }

  function Machines(count: nat): (vms: seq<VMStatus>)
    ensures |vms| == count
  {
    seq(count, _ => VMStatus("", ""))
  }

  function ReadyNodes(name: string, count: nat): seq<Node> {
    if count == 0 then [] else ReadyNodes(name, count - 1) + [Node(name, "", [Condition(READY, "True")])]
  }

  lemma {:induction false} ReadyNodesCount(name: string, count: nat)
    ensures CountReady(ReadyNodes(name, count), name) == count
  {
    if count > 0 {
      ReadyNodesCount(name, count - 1);
      var nodes := ReadyNodes(name, count);
      assert nodes[..|nodes| - 1] == ReadyNodes(name, count - 1);
      assert nodes[|nodes| - 1].conditions[0].kind == READY;
      assert name <= nodes[|nodes| - 1].name[0..];
    }
  }

  lemma NextScaling(s: State, n: string) returns (m: PassMove)
    requires Coherent(s) && n in s.passes && s.passes[n].Scaling?
    ensures Advances(s, n, m)
  {
    assert PassOk(s, n);
    var p := s.passes[n];
    if Hopeless(s, n, p) {
      m := Abort;
    } else if p.k == |p.inst.status.nodes| {
      var count := p.inst.spec.replicas.value;
      m := Resize(ScaleSet(count, Machines(count)));
    } else if p.drained {
      m := DeleteVM(p.inst.status.nodes[p.k], ScaleSet(0, []));
    } else {
      m := DrainVM(p.inst.status.nodes[p.k]);
    }
  }

  lemma NextAwaiting(s: State, n: string) returns (m: PassMove)
    requires Coherent(s) && n in s.passes && s.passes[n].Awaiting?
    ensures Advances(s, n, m)
  {
    assert PassOk(s, n);
    var inst := s.passes[n].inst;
    ReadyNodesCount(n, |inst.status.nodes|);
    m := NodesReady(inst.spec.version, |inst.status.nodes|, ReadyNodes(n, |inst.status.nodes|));
  }

  lemma NextCreating(s: State, n: string) returns (m: PassMove)
    requires n in s.passes && s.passes[n].Creating?
    ensures Advances(s, n, m)
  {
    var spec := s.passes[n].inst.spec;
    if Possible(spec) {
      m := CreateScaleSet(ScaleSet(spec.replicas.value, Machines(spec.replicas.value)));
    } else {
      m := Abort;
    }
  }

  lemma NextRecording(s: State, n: string)
    requires Coherent(s) && n in s.passes && s.passes[n].Recording?
    ensures Advances(s, n, Record)
  {
    assert PassOk(s, n);
  }

  lemma NextMove(s: State, n: string) returns (m: PassMove)
    requires Coherent(s) && n in s.passes
    ensures Advances(s, n, m)
  {
    match s.passes[n]
    case Scaling(_, _, _) => m := NextScaling(s, n);
    case Awaiting(_) => m := NextAwaiting(s, n);
    case Creating(_) => m := NextCreating(s, n);
    case Recording(_, _) =>
      NextRecording(s, n);
      m := Record;
    case Listing(_) => m := ListVMs(true);
    case DroppingScaleSet(_) => m := DropScaleSet(true);
    case _ => m := PutFinalizers;
  }

  // ---------- Putting calm runs together ----------

  lemma {:induction false} CalmConcat(s: State, x: seq<Action>, y: seq<Action>)
    requires Run(s, x) && CalmRun(s, x) && Run(After(s, x), y) && CalmRun(After(s, x), y)
    ensures Run(s, x + y) && CalmRun(s, x + y) && After(s, x + y) == After(After(s, x), y)
    decreases |y|
  {
    RunConcat(s, x, y);
    if y == [] {
      assert x + y == x;
    } else {
      var front := y[..|y| - 1];
      CalmConcat(s, x, front);
      assert (x + y)[..|x + y| - 1] == x + front;
    }
  }

  lemma CalmOne(s: State, a: Action)
    requires Enabled(s, a) && Calm(s, a)
    ensures Run(s, [a]) && CalmRun(s, [a]) && After(s, [a]) == Apply(s, a)
  {
    RunExtends(s, [], a);
    assert [] + [a] == [a];
    assert [a][..0] == [];
    assert CalmRun(s, []);
  }

  lemma {:induction false} CompletedSooner(s: State, x: seq<Action>, y: seq<Action>, k: Key)
    requires Run(s, x) && Run(After(s, x), y) && Completed(s, x, k)
    ensures Run(s, x + y) && Completed(s, x + y, k)
    decreases |y|
  {
    RunConcat(s, x, y);
    if y == [] {
      assert x + y == x;
    } else {
      var front := y[..|y| - 1];
      RunPrefix(After(s, x), y, |front|);
      CompletedSooner(s, x, front, k);
      assert (x + y)[..|x + y| - 1] == x + front;
    }
  }

  lemma {:induction false} StartedLater(x: seq<Action>, y: seq<Action>, k: Key)
    ensures Started(y, k) ==> Started(x + y, k)
    decreases |y|
  {
    if y != [] {
      var front := y[..|y| - 1];
      StartedLater(x, front, k);
      assert (x + y)[..|x + y| - 1] == x + front;
    }
  }

  lemma {:induction false} CompletedLater(s: State, x: seq<Action>, y: seq<Action>, k: Key)
    requires Run(s, x) && Run(After(s, x), y) && Completed(After(s, x), y, k)
    ensures Run(s, x + y) && Completed(s, x + y, k)
    decreases |y|
  {
    var front := y[..|y| - 1];
    RunConcat(s, x, y);
    assert (x + y)[..|x + y| - 1] == x + front;
    if Completed(After(s, x), front, k) {
      CompletedLater(s, x, front, k);
    } else {
      StartedLater(x, y, k);
    }
  }

  // ---------- Bringing a pass to its end ----------

  /** A calm run that leaves `k` without a pass. */
  ghost predicate Frees(s: State, acts: seq<Action>, k: Key) {
    Run(s, acts) && CalmRun(s, acts) && Fit(After(s, acts)) && Rests(After(s, acts), k)
  }

  lemma Prepend(s: State, a: Action, rest: seq<Action>, k: Key)
    requires Enabled(s, a) && Calm(s, a) && Frees(Apply(s, a), rest, k)
    ensures Frees(s, [a] + rest, k)
  {
    CalmOne(s, a);
    CalmConcat(s, [a], rest);
  }

  lemma SetFinishes(s: State, n: string) returns (acts: seq<Action>)
    requires Fit(s)
    ensures Frees(s, acts, SetKey(n))
    decreases if n in s.passes then Weight(s, n) + 1 else 0
  {
    if n !in s.passes {
      return [];
    }
    var m := NextMove(s, n);
    var a := OfSet(n, m);
    FitStep(s, a);
    var rest := SetFinishes(Apply(s, a), n);
    Prepend(s, a, rest, SetKey(n));
    acts := [a] + rest;
  }

  function Phase(p: PoolPass): nat {
    match p
    case PoolIdle => 0
    case CreatingSet(_) => 1
    case Mirroring(_, _) => 1
    case Collecting(_, _, _) => 2
    case ListingSets(_, _) => 3
    case Respecing(_, _) => 4
    case Fetching(_) => 5
  }

  function Left(p: PoolPass): nat {
    if p.Collecting? then |p.left| else 0
  }

  lemma NextPoolMove(s: State) returns (m: PoolMove)
    requires !s.poolPass.PoolIdle?
    ensures PoolEnabled(s, m) && m != PoolAbort && m != PoolStart
    ensures var p := PoolStep(s, m).poolPass;
      Phase(p) < Phase(s.poolPass) || (Phase(p) == Phase(s.poolPass) && Left(p) < Left(s.poolPass))
  {
    match s.poolPass
    case Fetching(_) => m := PoolFetch;
    case CreatingSet(_) => m := PoolCreate;
    case Respecing(_, _) => m := PoolRespec;
    case ListingSets(_, _) =>
      var order := SomeOrder(s.nodeSets.Keys);
      m := PoolList(order);
    case Collecting(_, _, _) => m := PoolCollect;
    case Mirroring(_, _) => m := PoolMirror;
  }

  lemma PoolFinishes(s: State) returns (acts: seq<Action>)
    requires Fit(s)
    ensures Frees(s, acts, PoolKey)
    decreases Phase(s.poolPass), Left(s.poolPass)
  {
    if s.poolPass.PoolIdle? {
      return [];
    }
    var m := NextPoolMove(s);
    var a := OfPool(m);
    FitStep(s, a);
    var rest := PoolFinishes(Apply(s, a));
    Prepend(s, a, rest, PoolKey);
    acts := [a] + rest;
  }

  lemma Finishes(s: State, k: Key) returns (acts: seq<Action>)
    requires Fit(s)
    ensures Frees(s, acts, k)
  {
    match k
    case PoolKey => acts := PoolFinishes(s);
    case SetKey(n) => acts := SetFinishes(s, n);
  }

  /** A calm run in which `k` completes a pass, and after which everything is as sound as before. */
  ghost predicate Serves(s: State, acts: seq<Action>, k: Key) {
    Run(s, acts) && CalmRun(s, acts) && Fit(After(s, acts)) && Completed(s, acts, k)
  }

  lemma {:induction false} StartedFirst(a: Action, rest: seq<Action>, k: Key)
    requires Starts(a, k)
    ensures Started([a] + rest, k)
    decreases |rest|
  {
    if rest == [] {
      assert [a] + rest == [a];
    } else {
      var front := rest[..|rest| - 1];
      StartedFirst(a, front, k);
      assert ([a] + rest)[..|[a] + rest| - 1] == [a] + front;
    }
  }

  lemma FreshPass(s: State, k: Key) returns (acts: seq<Action>)
    requires Fit(s) && Rests(s, k)
    ensures Serves(s, acts, k)
  {
    var a := match k case PoolKey => OfPool(PoolStart) case SetKey(n) => OfSet(n, Start);
    FitStep(s, a);
    var rest := Finishes(Apply(s, a), k);
    Prepend(s, a, rest, k);
    StartedFirst(a, rest, k);
    acts := [a] + rest;
  }

  /** From every fit state, whatever is in flight, a reconciler can complete a pass. */
  lemma PassCompletes(s: State, k: Key) returns (acts: seq<Action>)
    requires Fit(s)
    ensures Serves(s, acts, k)
  {
    var first := Finishes(s, k);
    var second := FreshPass(After(s, first), k);
    CalmConcat(s, first, second);
    CompletedLater(s, first, second, k);
    acts := first + second;
  }

  // ---------- Rounds ----------

  lemma RoundGrows(s: State, x: seq<Action>, y: seq<Action>, names: set<string>, n: string)
    requires Round(s, x, names) && Serves(After(s, x), y, SetKey(n))
    ensures Round(s, x + y, names + {n}) && Fit(After(s, x + y))
  {
    CalmConcat(s, x, y);
    CompletedSooner(s, x, y, PoolKey);
    CompletedLater(s, x, y, SetKey(n));
    forall m | m in names ensures Completed(s, x + y, SetKey(m)) {
      CompletedSooner(s, x, y, SetKey(m));
    }
  }

  /** From every fit state there is a round. */
  lemma RoundExists(s: State, names: set<string>) returns (acts: seq<Action>)
    requires Fit(s)
    ensures Round(s, acts, names) && Fit(After(s, acts))
    decreases names
  {
    if names == {} {
      acts := PassCompletes(s, PoolKey);
    } else {
      var n :| n in names;
      var x := RoundExists(s, names - {n});
      var y := PassCompletes(After(s, x), SetKey(n));
      RoundGrows(s, x, y, names - {n}, n);
      assert names - {n} + {n} == names;
      acts := x + y;
    }
  }

  /** However many rounds there were, there is a next one. */
  lemma RoundsExist(s: State, names: set<string>, count: nat) returns (rounds: seq<seq<Action>>)
    requires Fit(s)
    ensures |rounds| == count && AllRounds(s, rounds, names) && Fit(End(s, rounds, names))
    decreases count
  {
    if count == 0 {
      return [];
    }
    var front := RoundsExist(s, names, count - 1);
    var last := RoundExists(End(s, front, names), names);
    rounds := front + [last];
    assert rounds[..|rounds| - 1] == front;
  }

  /** All the rounds as one run. */
  lemma {:induction false} Joined(s: State, rounds: seq<seq<Action>>, names: set<string>) returns (acts: seq<Action>)
    requires AllRounds(s, rounds, names)
    ensures Run(s, acts) && CalmRun(s, acts) && After(s, acts) == End(s, rounds, names)
    decreases |rounds|
  {
    if rounds == [] {
      return [];
    }
    var front, last := rounds[..|rounds| - 1], rounds[|rounds| - 1];
    var x := Joined(s, front, names);
    CalmConcat(s, x, last);
    acts := x + last;
  }

  /** From every fit state, with any passes in flight and any copies stale, some calm run converges. */
  lemma ConvergenceIsReachable(s: State)
    requires Fit(s)
    ensures exists acts ::
      Run(s, acts) && CalmRun(s, acts) && Base(After(s, acts)) && Converged(After(s, acts))
  {
    var names := Expected(s);
    var rounds := RoundsExist(s, names, GOALS + 2 + Lag(s) + |Older(s)|);
    ConvergesWithinRounds(s, rounds, names);
    var acts := Joined(s, rounds, names);
    assert Run(s, acts) && CalmRun(s, acts) && Converged(After(s, acts));
  }

  /** Runs begin soundly. */
  lemma InitialIsSound(s: State)
    requires Initial(s) && Possible(s.pool.spec)
    ensures Fit(s)
  {}
}
