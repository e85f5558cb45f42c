/** Finalizer lists and the polling loops over the Kubernetes node list (helpers/helpers.go). */
module Helpers {
  import opened Types

  // ---------- Finalizers ----------

  method ContainsFinalizer(slice: seq<string>, s: string) returns (found: bool)
    ensures found <==> s in slice
  {
    for i := 0 to |slice|
      invariant s !in slice[..i]
    {
      if slice[i] == s {
        return true;
      }
    }
    return false;
  }

  /** The entries of `slice` other than `s`, in their order. */
  function Removed(slice: seq<string>, s: string): seq<string> {
    if slice == [] then []
    else if slice[|slice| - 1] == s then Removed(slice[..|slice| - 1], s)
    else Removed(slice[..|slice| - 1], s) + [slice[|slice| - 1]]
  }

  method RemoveFinalizer(slice: seq<string>, s: string) returns (result: seq<string>)
    ensures result == Removed(slice, s)
  {
    result := [];
    for i := 0 to |slice|
      invariant result == Removed(slice[..i], s)
    {
      assert slice[..i + 1][..i] == slice[..i];
      if slice[i] == s {
        continue;
      }
      result := result + [slice[i]];
    }
    assert slice[..|slice|] == slice;
  }

  lemma {:induction false} RemovedDistributes(x: seq<string>, y: seq<string>, s: string)
    ensures Removed(x + y, s) == Removed(x, s) + Removed(y, s)
    decreases |y|
  {
    if y == [] {
      assert x + y == x;
    } else {
      assert (x + y)[..|x + y| - 1] == x + y[..|y| - 1];
      RemovedDistributes(x, y[..|y| - 1], s);
    }
  }

  /** Exactly the named entry goes: every other entry stays, as often as before, between the same neighbours. */
  lemma RemovedDropsOnlyTheNamedEntry(before: seq<string>, e: string, after: seq<string>, s: string)
    ensures Removed(before + [e] + after, s)
            == Removed(before, s) + (if e == s then [] else [e]) + Removed(after, s)
  {
    RemovedDistributes(before + [e], after, s);
    RemovedDistributes(before, [e], s);
    assert [e][..0] == [];
  }

  lemma {:induction false} RemovedMembers(slice: seq<string>, s: string)
    ensures forall e :: e in Removed(slice, s) <==> e in slice && e != s
    ensures multiset(Removed(slice, s)) == multiset(slice)[s := 0]
  {
    if slice != [] {
      var front := slice[..|slice| - 1];
      RemovedMembers(front, s);
      assert slice == front + [slice[|slice| - 1]];
    }
  }

  /** Appending a missing finalizer and removing it again gives the list back. */
  lemma {:induction false} RemovedUndoesAppend(slice: seq<string>, s: string)
    requires s !in slice
    ensures Removed(slice + [s], s) == slice
  {
    RemovedDropsOnlyTheNamedEntry(slice, s, [], s);
    assert slice + [s] + [] == slice + [s];
    RemovedAbsent(slice, s);
  }

  lemma {:induction false} RemovedAbsent(slice: seq<string>, s: string)
    requires s !in slice
    ensures Removed(slice, s) == slice
  {
    if slice != [] {
      RemovedAbsent(slice[..|slice| - 1], s);
      assert slice == slice[..|slice| - 1] + [slice[|slice| - 1]];
    }
  }

  // ---------- Nodes ----------

  datatype Condition = Condition(kind: string, status: string)

  datatype Node = Node(name: string, kubeletVersion: string, conditions: seq<Condition>)

  const READY := "Ready"
  const POLLS := 100

  predicate Contains(text: string, part: string) {
    exists i | 0 <= i <= |text| :: part <= text[i..]
  }

  /** A part of the text is `part`. */
  lemma ContainsMeans(text: string, part: string)
    ensures Contains(text, part) <==> exists before, after :: text == before + part + after
  {
    if Contains(text, part) {
      var i :| 0 <= i <= |text| && part <= text[i..];
      assert text == text[..i] + part + text[i..][|part|..];
    }
    forall before: string, after: string | text == before + part + after ensures Contains(text, part) {
      assert text[|before|..] == part + after;
    }
  }

  /** Carries a condition of the kind Ready, whatever the condition's status. */
  predicate HasReadyEntry(node: Node) {
    exists c | c in node.conditions :: c.kind == READY
  }

  predicate Counts(node: Node, name: string) {
    Contains(node.name, name) && HasReadyEntry(node)
  }

  /** A node counts when its name has the given part and one of its conditions is of the kind Ready. */
  lemma CountsMeans(node: Node, name: string)
    ensures Counts(node, name) <==>
      && (exists before, after :: node.name == before + name + after)
      && exists c :: c in node.conditions && c.kind == "Ready"
  {
    ContainsMeans(node.name, name);
  }

  function CountReady(nodes: seq<Node>, name: string): nat {
    if nodes == [] then 0
    else CountReady(nodes[..|nodes| - 1], name) + (if Counts(nodes[|nodes| - 1], name) then 1 else 0)
  }

  ghost function ReadyPositions(nodes: seq<Node>, name: string): set<nat> {
    set i: nat | i < |nodes| && Counts(nodes[i], name)
  }

  /** The count is the number of distinct positions of the list that hold a matching node. */
  lemma {:induction false} CountReadyIsCardinality(nodes: seq<Node>, name: string)
    ensures CountReady(nodes, name) == |ReadyPositions(nodes, name)|
  {
    if nodes != [] {
      var n := |nodes| - 1;
      CountReadyIsCardinality(nodes[..n], name);
      assert ReadyPositions(nodes, name)
          == ReadyPositions(nodes[..n], name) + (if Counts(nodes[n], name) then {n} else {});
    }
  }

  predicate TooFew(list: Result<seq<Node>>, name: string, count: int) {
    list.Ok? && CountReady(list.value, name) < count
  }

  predicate Enough(list: Result<seq<Node>>, name: string, count: int) {
    list.Ok? && CountReady(list.value, name) >= count
  }

  /** One of the polled lists is enough, and each before it could be read. */
  ghost predicate EnoughInTime(lists: nat -> Result<seq<Node>>, name: string, count: int) {
    exists i: nat :: i < POLLS && Enough(lists(i), name, count) && forall j: nat | j < i :: TooFew(lists(j), name, count)
  }

  /** `lists(i)` is what the i-th List call returns. Succeeds exactly when one of the first 100 lists holds
      enough matching nodes and no earlier call failed. */
  method WaitForNodesReady(lists: nat -> Result<seq<Node>>, nodeName: string, nodeCount: int)
      returns (err: Option<string>, ghost last: nat)
    ensures err.None? <==> EnoughInTime(lists, nodeName, nodeCount)
    ensures err.None? <==>
      exists i: nat :: i < 100 && lists(i).Ok? && CountReady(lists(i).value, nodeName) >= nodeCount
        && forall j: nat | j < i :: lists(j).Ok? && CountReady(lists(j).value, nodeName) < nodeCount
    ensures err.None? ==> last < POLLS && Enough(lists(last), nodeName, nodeCount)
    ensures err.None? && CountedAreReady(lists(last).value, nodeName) ==>
      CountTrulyReady(lists(last).value, nodeName) >= nodeCount
    ensures err.Some? ==>
      || (forall j: nat | j < POLLS :: TooFew(lists(j), nodeName, nodeCount))
      || (last < POLLS && lists(last).Err? && forall j: nat | j < last :: TooFew(lists(j), nodeName, nodeCount))
  {
    var localErr := None;
    last := 0;
    for i := 0 to POLLS
      invariant forall j: nat | j < i :: TooFew(lists(j), nodeName, nodeCount)
      invariant i > 0 ==> localErr.Some?
    {
      last := i;
      var nodeList := lists(i);
      if nodeList.Err? {
        return Some(nodeList.message), i;
      }
      var items := nodeList.value;
      var foundNodes := 0;
      for k := 0 to |items|
        invariant foundNodes == CountReady(items[..k], nodeName)
      {
        assert items[..k + 1][..k] == items[..k];
        if Contains(items[k].name, nodeName) {
          for c := 0 to |items[k].conditions|
            invariant foundNodes == CountReady(items[..k], nodeName)
            invariant forall d | 0 <= d < c :: items[k].conditions[d].kind != READY
          {
            if items[k].conditions[c].kind == READY {
              foundNodes := foundNodes + 1;
              break;
            }
          }
        }
      }
      assert items[..|items|] == items;
      if foundNodes < nodeCount {
        localErr := Some("not enough nodes to be Ready");
        continue;
      }
      localErr := None;
      CountIsReadinessExactly(items, nodeName);
      return localErr, i;
    }
    return localErr, last;
  }

  // ---------- Counted and ready ----------

  const TRUE := "True"

  /** The kubelet says that the node is ready. */
  predicate IsReady(node: Node) {
    exists c | c in node.conditions :: c.kind == READY && c.status == TRUE
  }

  /** The matching nodes of a list that are ready. */
  function CountTrulyReady(nodes: seq<Node>, name: string): nat {
    if nodes == [] then 0
    else
      var last := nodes[|nodes| - 1];
      CountTrulyReady(nodes[..|nodes| - 1], name) + (if Contains(last.name, name) && IsReady(last) then 1 else 0)
  }

  predicate CountedAreReady(nodes: seq<Node>, name: string) {
    forall i | 0 <= i < |nodes| && Counts(nodes[i], name) :: IsReady(nodes[i])
  }

  /** The polling loop does not look at the status of a Ready condition: for every list, it counts exactly the ready
      nodes if and only if each matching node with a Ready condition has one that reads "True". Otherwise it counts
      more. */
  lemma {:induction false} CountIsReadinessExactly(nodes: seq<Node>, name: string)
    ensures CountTrulyReady(nodes, name) <= CountReady(nodes, name)
    ensures CountReady(nodes, name) == CountTrulyReady(nodes, name) <==> CountedAreReady(nodes, name)
    decreases |nodes|
  {
    if nodes != [] {
      var n := |nodes| - 1;
      CountIsReadinessExactly(nodes[..n], name);
      assert CountedAreReady(nodes, name) <==>
        CountedAreReady(nodes[..n], name) && (Counts(nodes[n], name) ==> IsReady(nodes[n])) by {
        assert forall i | 0 <= i < n :: nodes[..n][i] == nodes[i];
      }
    }
  }

  /** One such node, on its own: its Ready condition reads "False", and it is counted. */
  lemma UnreadyNodeCounts(name: string)
    ensures CountReady([Node(name, "v1.15.0", [Condition(READY, "False")])], name) == 1
    ensures CountTrulyReady([Node(name, "v1.15.0", [Condition(READY, "False")])], name) == 0
  {
    var node := Node(name, "v1.15.0", [Condition(READY, "False")]);
    assert node.conditions[0].kind == READY;
    assert name <= node.name[0..];
    assert Counts(node, name);
    assert CountReady([node][..0], name) == 0;
    assert CountTrulyReady([node][..0], name) == 0;
  }

  /** So the list that ends the wait shows that many ready nodes, for every count that it passes, if and only if that
      holds of it. */
  lemma WaitMeansReadyExactly(list: seq<Node>, name: string)
    ensures (forall count: int :: Enough(Ok(list), name, count) ==> CountTrulyReady(list, name) >= count)
      <==> CountedAreReady(list, name)
  {
    CountIsReadinessExactly(list, name);
    if !CountedAreReady(list, name) {
      assert Enough(Ok(list), name, CountReady(list, name));
    }
  }

  /** `seen(i)` is what the i-th Get returns. Succeeds exactly when one of the first 100 observations shows the
      version and every earlier one was read and shows another version. Readiness plays no part: the loop over
      the conditions only sets an error that the version test clears. */
  method WaitForNodeVersionReady(seen: nat -> Result<Node>, version: string) returns (err: Option<string>)
    ensures err.None? <==>
      exists i: nat :: i < 100 && seen(i).Ok? && seen(i).value.kubeletVersion == "v" + version
        && forall j: nat | j < i :: seen(j).Ok? && seen(j).value.kubeletVersion != "v" + version
  {
    var localErr := None;
    for i := 0 to POLLS
      invariant forall j: nat | j < i :: seen(j).Ok? && seen(j).value.kubeletVersion != "v" + version
      invariant i > 0 ==> localErr.Some?
    {
      var node := seen(i);
      if node.Err? {
        return Some(node.message);
      }
      for c := 0 to |node.value.conditions| {
        if node.value.conditions[c].kind != READY {
          localErr := Some("not ready");
          continue;
        }
      }
      if node.value.kubeletVersion != "v" + version {
        localErr := Some("unexpected version");
        continue;
      }
      localErr := None;
      return localErr;
    }
    return localErr;
  }

  method IsNodeUpdated(seen: Result<Node>, version: string) returns (updated: Result<bool>)
    ensures seen.Ok? ==> updated == Ok(seen.value.kubeletVersion == "v" + version)
    ensures seen.Err? ==> updated == Err(seen.message)
  {
    if seen.Err? {
      return Err(seen.message);
    }
    if seen.value.kubeletVersion == "v" + version {
      return Ok(true);
    }
    return Ok(false);
  }
}
