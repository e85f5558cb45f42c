/** The scale-down loop: which machines it drains and deletes, in which order, and what the closing resize does. */
module ScaleLoop {
  import opened Types
  import opened Protocol

  // ---------- The calls of one pass ----------

  /** A drain or delete call that went through. */
  datatype Call = Drained(vm: VMStatus) | Deleted(vm: VMStatus)

  function CallOf(a: Action, n: string): seq<Call> {
    if !a.OfSet? || a.set' != n then []
    else match a.move
      case DrainVM(vm) => [Drained(vm)]
      case DeleteVM(vm, _) => [Deleted(vm)]
      case _ => []
  }

  function Calls(acts: seq<Action>, n: string): seq<Call> {
    if acts == [] then [] else Calls(acts[..|acts| - 1], n) + CallOf(acts[|acts| - 1], n)
  }

  /** Draining and then deleting each of `nodes[from..k]`, in list order. */
  function Pairs(nodes: seq<VMStatus>, from: nat, k: nat): seq<Call>
    requires from <= k <= |nodes|
    decreases k
  {
    if k == from then [] else Pairs(nodes, from, k - 1) + [Drained(nodes[k - 1]), Deleted(nodes[k - 1])]
  }

  predicate Progress(calls: seq<Call>, inst: NodeSet, k: nat, drained: bool)
    requires inst.spec.replicas.Some?
  {
    var nodes := inst.status.nodes;
    && Kept(inst) <= k <= |nodes| && (drained ==> k < |nodes|)
    && calls == Pairs(nodes, Kept(inst), k) + (if drained then [Drained(nodes[k])] else [])
  }

  predicate Restarts(a: Action, n: string) {
    a == OfSet(n, Start)
  }

  predicate Resizes(a: Action, n: string) {
    a.OfSet? && a.set' == n && a.move.Resize?
  }

  ghost predicate Resized(acts: seq<Action>, n: string) {
    exists a :: a in acts && Resizes(a, n)
  }

  ghost predicate Stopped(calls: seq<Call>, inst: NodeSet, resized: bool)
    requires inst.spec.replicas.Some?
  {
    exists k: nat, drained ::
      Progress(calls, inst, k, drained) && (resized ==> k == |inst.status.nodes| && !drained)
  }

  ghost predicate LoopState(s: State, n: string, inst: NodeSet, calls: seq<Call>, resized: bool)
    requires inst.spec.replicas.Some?
  {
    if n in s.passes then
      && s.passes[n].Scaling? && s.passes[n].inst == inst && !resized
      && Progress(calls, inst, s.passes[n].k, s.passes[n].drained)
    else Stopped(calls, inst, resized)
  }

  lemma OwnLoopStep(s: State, n: string, m: PassMove, inst: NodeSet, calls: seq<Call>)
    requires inst.spec.replicas.Some? && LoopState(s, n, inst, calls, false)
    requires n in s.passes && MoveEnabled(s, n, s.passes[n], m)
    ensures LoopState(MoveStep(s, n, s.passes[n], m), n, inst, calls + CallOf(OfSet(n, m), n), m.Resize?)
  {
    var k, drained := s.passes[n].k, s.passes[n].drained;
    assert calls + [] == calls;
    if m.DeleteVM? {
      assert calls + [Deleted(m.vm)] == Pairs(inst.status.nodes, Kept(inst), k + 1);
    } else if m.DrainVM? {
    } else {
      assert Progress(calls, inst, k, drained);
    }
  }

  lemma LoopStep(s: State, a: Action, n: string, inst: NodeSet, calls: seq<Call>, resized: bool)
    requires inst.spec.replicas.Some? && LoopState(s, n, inst, calls, resized)
    requires Enabled(s, a) && !Restarts(a, n)
    ensures LoopState(Apply(s, a), n, inst, calls + CallOf(a, n), resized || Resizes(a, n))
  {
    assert calls + [] == calls;
    match a
    case Env(e) => EnvShape(s, e);
    case OfPool(m) => PoolShape(s, m);
    case OfSet(n', m) =>
      MoveShape(s, n', m);
      if n' == n {
        OwnLoopStep(s, n, m, inst, calls);
      }
  }

  lemma ResizedGrows(acts: seq<Action>, a: Action, n: string)
    ensures Resized(acts + [a], n) <==> Resized(acts, n) || Resizes(a, n)
  {
    assert forall b :: b in acts + [a] <==> b in acts || b == a;
  }

  lemma {:induction false} LoopRun(s: State, acts: seq<Action>, n: string, inst: NodeSet)
    requires inst.spec.replicas.Some? && n in s.passes && s.passes[n] == Scaling(inst, Kept(inst), false)
    requires Run(s, acts) && forall a | a in acts :: !Restarts(a, n)
    ensures LoopState(After(s, acts), n, inst, Calls(acts, n), Resized(acts, n))
    decreases |acts|
  {
    if acts == [] {
      assert Progress([], inst, Kept(inst), false);
    } else {
      var front, a := acts[..|acts| - 1], acts[|acts| - 1];
      assert acts == front + [a];
      LoopRun(s, front, n, inst);
      LoopStep(After(s, front), a, n, inst, Calls(front, n), Resized(front, n));
      ResizedGrows(front, a, n);
    }
  }

  /** From the moment the loop begins, whatever is interleaved: the pass drains and deletes machines of the list
      behind the first `Replicas`, one after the other in list order, deleting each right after its own drain
      went through; when it stops early it has done so for a prefix of them, and it reaches the resize only
      after all of them. */
  lemma ScaleLoopIsExact(s: State, acts: seq<Action>, n: string, inst: NodeSet)
    requires inst.spec.replicas.Some? && n in s.passes && s.passes[n] == Scaling(inst, Kept(inst), false)
    requires Run(s, acts) && forall a | a in acts :: !Restarts(a, n)
    ensures Stopped(Calls(acts, n), inst, Resized(acts, n))
  {
    LoopRun(s, acts, n, inst);
    if n in After(s, acts).passes {
      var p := After(s, acts).passes[n];
      assert Progress(Calls(acts, n), inst, p.k, p.drained);
    }
  }

  // ---------- What becomes of the scale set ----------

  predicate Distinct(vms: seq<VMStatus>) {
    forall i, j | 0 <= i < j < |vms| :: vms[i] != vms[j]
  }

  /** A machine goes, and the capacity with it. */
  predicate TakesOut(before: ScaleSet, vm: VMStatus, rest: ScaleSet) {
    exists i | 0 <= i < |before.vms| ::
      before.vms[i] == vm && rest == ScaleSet(before.capacity - 1, before.vms[..i] + before.vms[i + 1..])
  }

  /** The cloud answers each deletion at once and does nothing else to the scale set of `n`. */
  predicate Prompt(s: State, a: Action, n: string) {
    && (a.Env? && a.e.Drift? ==> a.e.name != n)
    && (a.OfSet? && a.set' == n && a.move.DeleteVM? && n in s.cloud ==>
        TakesOut(s.cloud[n], a.move.vm, a.move.rest))
  }

  ghost predicate PromptRun(s: State, acts: seq<Action>, n: string)
    requires Run(s, acts)
    decreases |acts|
  {
    acts != [] ==>
      PromptRun(s, acts[..|acts| - 1], n) && Prompt(After(s, acts[..|acts| - 1]), acts[|acts| - 1], n)
  }

  /** What is left of the listed machines once the loop has passed position `k`. */
  function Shrunk(capacity: int, inst: NodeSet, k: nat): ScaleSet
    requires inst.spec.replicas.Some? && Kept(inst) <= k <= |inst.status.nodes|
  {
    ScaleSet(capacity - (k - Kept(inst)), inst.status.nodes[..Kept(inst)] + inst.status.nodes[k..])
  }

  lemma Cut(x: seq<VMStatus>, y: seq<VMStatus>)
    requires y != []
    ensures (x + y)[..|x|] + (x + y)[|x| + 1..] == x + y[1..]
  {}

  lemma OnlyPlace(nodes: seq<VMStatus>, kept: nat, k: nat, i: nat)
    requires kept <= k < |nodes| && Distinct(nodes) && i < kept + |nodes| - k
    requires (nodes[..kept] + nodes[k..])[i] == nodes[k]
    ensures i == kept
  {
    var at := if i < kept then i else k + (i - kept);
    assert nodes[at] == nodes[k];
  }

  lemma TakesOutNext(capacity: int, inst: NodeSet, k: nat, rest: ScaleSet)
    requires inst.spec.replicas.Some? && Kept(inst) <= k < |inst.status.nodes| && Distinct(inst.status.nodes)
    requires TakesOut(Shrunk(capacity, inst, k), inst.status.nodes[k], rest)
    ensures rest == Shrunk(capacity, inst, k + 1)
  {
    var nodes, kept := inst.status.nodes, Kept(inst);
    var before := Shrunk(capacity, inst, k);
    var i :| 0 <= i < |before.vms| && before.vms[i] == nodes[k]
      && rest == ScaleSet(before.capacity - 1, before.vms[..i] + before.vms[i + 1..]);
    OnlyPlace(nodes, kept, k, i);
    Cut(nodes[..kept], nodes[k..]);
    assert nodes[k..][1..] == nodes[k + 1..];
  }

  ghost predicate Tracks(s: State, n: string, inst: NodeSet, capacity: int)
    requires inst.spec.replicas.Some?
  {
    n in s.passes ==>
      && s.passes[n].Scaling? && s.passes[n].inst == inst && Kept(inst) <= s.passes[n].k <= |inst.status.nodes|
      && n in s.cloud && s.cloud[n] == Shrunk(capacity, inst, s.passes[n].k)
  }

  lemma TracksStep(s: State, a: Action, n: string, inst: NodeSet, capacity: int)
    requires inst.spec.replicas.Some? && Distinct(inst.status.nodes)
    requires Tracks(s, n, inst, capacity) && Enabled(s, a) && !Restarts(a, n) && Prompt(s, a, n)
    ensures Tracks(Apply(s, a), n, inst, capacity)
  {
    match a
    case Env(e) => EnvShape(s, e);
    case OfPool(m) => PoolShape(s, m);
    case OfSet(n', m) =>
      MoveShape(s, n', m);
      if n' == n && m.DeleteVM? {
        TakesOutNext(capacity, inst, s.passes[n].k, m.rest);
      }
  }

  lemma {:induction false} ShrinksToPrefix(s: State, acts: seq<Action>, n: string, inst: NodeSet, capacity: int)
    requires inst.spec.replicas.Some? && n in s.passes && s.passes[n] == Scaling(inst, Kept(inst), false)
    requires n in s.cloud && s.cloud[n] == ScaleSet(capacity, inst.status.nodes) && Distinct(inst.status.nodes)
    requires Run(s, acts) && (forall a | a in acts :: !Restarts(a, n)) && PromptRun(s, acts, n)
    ensures Tracks(After(s, acts), n, inst, capacity)
    decreases |acts|
  {
    if acts == [] {
      assert inst.status.nodes[..Kept(inst)] + inst.status.nodes[Kept(inst)..] == inst.status.nodes;
    } else {
      var front, a := acts[..|acts| - 1], acts[|acts| - 1];
      ShrinksToPrefix(s, front, n, inst, capacity);
      assert a in acts;
      TracksStep(After(s, front), a, n, inst, capacity);
    }
  }

  /** The closing resize leaves the scale set alone, whatever the cloud would answer, exactly when the capacity
      it reads is the wanted count. */
  lemma ResizeIsNoOpExactly(s: State, n: string)
    requires n in s.passes && MoveEnabled(s, n, s.passes[n], Resize(ScaleSet(0, [])))
    ensures (forall made :: MoveStep(s, n, s.passes[n], Resize(made)).cloud == s.cloud)
            <==> Some(s.cloud[n].capacity) == s.passes[n].inst.spec.replicas
  {
    var other := ScaleSet(s.cloud[n].capacity + 1, []);
    var s' := MoveStep(s, n, s.passes[n], Resize(other));
    if Some(s.cloud[n].capacity) != s.passes[n].inst.spec.replicas {
      assert s'.cloud[n] == other;
    }
  }

  /** A scale-down of a set whose machines are all counted in its capacity, by a cloud that takes deletions at
      once: the first `Replicas` machines remain, untouched and in order, and the cloud never picks a victim. */
  lemma ScaleDownKeepsTheFirst(s: State, acts: seq<Action>, n: string, inst: NodeSet, made: ScaleSet)
    requires inst.spec.replicas.Some? && 0 <= inst.spec.replicas.value <= |inst.status.nodes|
    requires n in s.passes && s.passes[n] == Scaling(inst, Kept(inst), false)
    requires n in s.cloud && s.cloud[n] == ScaleSet(|inst.status.nodes|, inst.status.nodes)
    requires Distinct(inst.status.nodes)
    requires Run(s, acts) && (forall a | a in acts :: !Restarts(a, n)) && PromptRun(s, acts, n)
    requires Enabled(After(s, acts), OfSet(n, Resize(made)))
    ensures var r := inst.spec.replicas.value;
      && After(s, acts).cloud[n] == ScaleSet(r, inst.status.nodes[..r])
      && Apply(After(s, acts), OfSet(n, Resize(made))).cloud == After(s, acts).cloud
  {
    ShrinksToPrefix(s, acts, n, inst, |inst.status.nodes|);
  }

  // ---------- Late deletions ----------

  /** The capacity follows a deletion at once, or it does not follow it before the resize. */
  predicate Answers(s: State, a: Action, n: string) {
    && (a.Env? && a.e.Drift? ==> a.e.name != n)
    && (a.OfSet? && a.set' == n && a.move.DeleteVM? && n in s.cloud ==>
        s.cloud[n].capacity - 1 <= a.move.rest.capacity <= s.cloud[n].capacity)
  }

  ghost predicate AnswersRun(s: State, acts: seq<Action>, n: string)
    requires Run(s, acts)
    decreases |acts|
  {
    acts != [] ==>
      AnswersRun(s, acts[..|acts| - 1], n) && Answers(After(s, acts[..|acts| - 1]), acts[|acts| - 1], n)
  }

  predicate Late(s: State, a: Action, n: string) {
    && a.OfSet? && a.set' == n && a.move.DeleteVM?
    && n in s.cloud && a.move.rest.capacity == s.cloud[n].capacity
  }

  /** How many deletions the capacity did not follow. */
  ghost function Delays(s: State, acts: seq<Action>, n: string): nat
    requires Run(s, acts)
    decreases |acts|
  {
    if acts == [] then 0
    else
      Delays(s, acts[..|acts| - 1], n)
      + if Late(After(s, acts[..|acts| - 1]), acts[|acts| - 1], n) then 1 else 0
  }

  /** While the loop runs the capacity is down by the deletions so far, less the delayed ones. */
  ghost predicate Tallies(s: State, n: string, inst: NodeSet, capacity: int, delays: nat)
    requires inst.spec.replicas.Some?
  {
    n in s.passes ==>
      && s.passes[n].Scaling? && s.passes[n].inst == inst && Kept(inst) <= s.passes[n].k <= |inst.status.nodes|
      && n in s.cloud && s.cloud[n].capacity == capacity - (s.passes[n].k - Kept(inst)) + delays
  }

  lemma TalliesStep(s: State, a: Action, n: string, inst: NodeSet, capacity: int, delays: nat)
    requires inst.spec.replicas.Some? && Tallies(s, n, inst, capacity, delays)
    requires Enabled(s, a) && !Restarts(a, n) && Answers(s, a, n)
    ensures Tallies(Apply(s, a), n, inst, capacity, delays + if Late(s, a, n) then 1 else 0)
  {
    match a
    case Env(e) => EnvShape(s, e);
    case OfPool(m) => PoolShape(s, m);
    case OfSet(n', m) => MoveShape(s, n', m);
  }

  lemma {:induction false} TalliesRun(s: State, acts: seq<Action>, n: string, inst: NodeSet)
    requires inst.spec.replicas.Some? && n in s.passes && s.passes[n] == Scaling(inst, Kept(inst), false)
    requires n in s.cloud && Run(s, acts) && (forall a | a in acts :: !Restarts(a, n)) && AnswersRun(s, acts, n)
    ensures Tallies(After(s, acts), n, inst, s.cloud[n].capacity, Delays(s, acts, n))
    decreases |acts|
  {
    if acts != [] {
      var front, a := acts[..|acts| - 1], acts[|acts| - 1];
      TalliesRun(s, front, n, inst);
      assert a in acts;
      TalliesStep(After(s, front), a, n, inst, s.cloud[n].capacity, Delays(s, front, n));
    }
  }

  /** At the end of a scale-down the capacity exceeds the count by the number of deletions it has not followed yet;
      so the closing resize leaves the cloud alone exactly when there is none. */
  lemma ResizeIdleExactlyWhenPrompt(s: State, acts: seq<Action>, n: string, inst: NodeSet)
    requires inst.spec.replicas.Some? && 0 <= inst.spec.replicas.value <= |inst.status.nodes|
    requires n in s.passes && s.passes[n] == Scaling(inst, Kept(inst), false)
    requires n in s.cloud && s.cloud[n].capacity == |inst.status.nodes|
    requires Run(s, acts) && (forall a | a in acts :: !Restarts(a, n)) && AnswersRun(s, acts, n)
    requires Enabled(After(s, acts), OfSet(n, Resize(ScaleSet(0, []))))
    ensures After(s, acts).cloud[n].capacity == inst.spec.replicas.value + Delays(s, acts, n)
    ensures var end := After(s, acts);
      (forall made :: MoveStep(end, n, end.passes[n], Resize(made)).cloud == end.cloud) <==> Delays(s, acts, n) == 0
  {
    TalliesRun(s, acts, n, inst);
    ResizeIsNoOpExactly(After(s, acts), n);
  }

  /** The rest of the loop, with every deletion answered late. */
  lemma {:induction false} LateLoop(s: State, n: string, inst: NodeSet, k: nat) returns (acts: seq<Action>)
    requires n in s.passes && s.passes[n] == Scaling(inst, k, false) && k <= |inst.status.nodes| && n in s.cloud
    ensures Run(s, acts) && AnswersRun(s, acts, n) && forall a | a in acts :: !Restarts(a, n)
    ensures After(s, acts) == At(s, n, Scaling(inst, |inst.status.nodes|, false))
    ensures Delays(s, acts, n) == |inst.status.nodes| - k
    decreases |inst.status.nodes| - k
  {
    if k == |inst.status.nodes| {
      acts := [];
      assert s.passes[n := s.passes[n]] == s.passes;
    } else {
      var vm := inst.status.nodes[k];
      var a1, a2 := OfSet(n, DrainVM(vm)), OfSet(n, DeleteVM(vm, s.cloud[n]));
      var s1 := At(s, n, Scaling(inst, k, true));
      var s2 := At(s, n, Scaling(inst, k + 1, false));
      assert Apply(s, a1) == s1;
      assert s.cloud[n := s.cloud[n]] == s.cloud;
      assert Apply(s1, a2) == s2;
      var rest := LateLoop(s2, n, inst, k + 1);
      LateFirst(s1, n, a2, rest);
      LateFirst(s, n, a1, [a2] + rest);
      acts := [a1] + ([a2] + rest);
    }
  }

  /** One more action in front. */
  lemma {:induction false} LateFirst(s: State, n: string, a: Action, rest: seq<Action>)
    requires Enabled(s, a) && Answers(s, a, n) && Run(Apply(s, a), rest) && AnswersRun(Apply(s, a), rest, n)
    ensures Run(s, [a] + rest) && AnswersRun(s, [a] + rest, n) && After(s, [a] + rest) == After(Apply(s, a), rest)
    ensures Delays(s, [a] + rest, n) == Delays(Apply(s, a), rest, n) + if Late(s, a, n) then 1 else 0
    decreases |rest|
  {
    if rest == [] {
      assert [a] + rest == [a] && [a][..0] == [];
      assert Run(s, []) && AnswersRun(s, [], n) && Delays(s, [], n) == 0;
    } else {
      var front := rest[..|rest| - 1];
      LateFirst(s, n, a, front);
      assert ([a] + rest)[..|[a] + rest| - 1] == [a] + front;
    }
  }

  /** The machines of `vms` that are not among those to go, in order. */
  function Without(vms: seq<VMStatus>, gone: seq<VMStatus>): seq<VMStatus> {
    if vms == [] then []
    else (if vms[0] in gone then [] else [vms[0]]) + Without(vms[1..], gone)
  }

  /** Accepted deletions take effect: the machines go, and the capacity with them. */
  function Landed(before: ScaleSet, gone: seq<VMStatus>): ScaleSet {
    var left := Without(before.vms, gone);
    ScaleSet(before.capacity - (|before.vms| - |left|), left)
  }

  lemma {:induction false} WithoutJoin(x: seq<VMStatus>, y: seq<VMStatus>, gone: seq<VMStatus>)
    requires forall vm | vm in x :: vm !in gone
    requires forall vm | vm in y :: vm in gone
    ensures Without(x + y, gone) == x
    decreases |x| + |y|
  {
    if x != [] {
      WithoutJoin(x[1..], y, gone);
      assert (x + y)[1..] == x[1..] + y;
    } else if y != [] {
      WithoutJoin(x, y[1..], gone);
      assert x + y == y && x + y[1..] == y[1..];
    }
  }

  /** Such a run exists for every proper scale-down to at least one machine: all machines behind the first
      `Replicas` are drained and deleted, the cloud is late, and the resize takes the first machine of the list and
      keeps one whose deletion was accepted. Once the deletions have landed, one machine fewer than wanted is left. */
  lemma LateDeletionsLoseTheFirst(s: State, n: string, inst: NodeSet) returns (acts: seq<Action>, landing: Action)
    requires inst.spec.replicas.Some? && 0 < inst.spec.replicas.value < |inst.status.nodes|
    requires n in s.passes && s.passes[n] == Scaling(inst, Kept(inst), false) && Distinct(inst.status.nodes)
    requires n in s.cloud && s.cloud[n] == ScaleSet(|inst.status.nodes|, inst.status.nodes)
    ensures Run(s, acts) && n !in After(s, acts).passes && n in After(s, acts).cloud
    ensures Calls(acts, n) == Pairs(inst.status.nodes, Kept(inst), |inst.status.nodes|)
    ensures landing == Env(Drift(n, Some(Landed(After(s, acts).cloud[n], inst.status.nodes[Kept(inst)..]))))
    ensures Run(s, acts + [landing])
    ensures var r, nodes, end := inst.spec.replicas.value, inst.status.nodes, After(s, acts + [landing]);
      n in end.cloud && end.cloud[n] == ScaleSet(r - 1, nodes[1..r])
  {
    var r, nodes := inst.spec.replicas.value, inst.status.nodes;
    var made := ScaleSet(r, nodes[1..r + 1]);
    var loop := LateLoop(s, n, inst, Kept(inst));
    var resize := OfSet(n, Resize(made));
    RunExtends(s, loop, resize);
    acts := loop + [resize];
    assert acts[..|acts| - 1] == loop;
    LoopRun(s, loop, n, inst);
    WithoutJoin(nodes[1..r], [nodes[r]], nodes[r..]);
    assert made.vms == nodes[1..r] + [nodes[r]];
    landing := Env(Drift(n, Some(Landed(made, nodes[r..]))));
    RunExtends(s, acts, landing);
  }
}
