/**
 Copies of API objects. A struct is a value that may hold references: to a number, to the slots of a slice. Its
 cells are the memory behind those references, which whoever holds the struct may write.
 */
module DeepCopies {
  import opened Types

  class Cell<T> {
    var value: T

    constructor (value: T)
      ensures this.value == value
    {
      this.value := value;
    }
  }

  datatype Meta = Meta(name: string, finalizers: array?<string>)
  datatype Spec = Spec(version: string, replicas: Cell?<int>, sku: string)
  datatype Status = Status(replicas: int, version: string, state: string, kubeconfig: string, nodes: array?<VMStatus>)
  datatype PoolStatus = PoolStatus(nodeSetName: string, vmReplicas: int, status: Status)
  datatype PlaneSpec = PlaneSpec(version: string, sku: string)
  datatype PlaneStatus = PlaneStatus(version: string, state: string, nodes: array?<VMStatus>)

  /** A NodeSet, a NodePool or a ControlPlane. */
  datatype Struct =
    | SetStruct(meta: Meta, spec: Spec, status: Status)
    | PoolStruct(meta: Meta, spec: Spec, poolStatus: PoolStatus)
    | PlaneStruct(meta: Meta, planeSpec: PlaneSpec, planeStatus: PlaneStatus)

  // ---------- What a struct says ----------

  datatype MetaValue = MetaValue(name: string, finalizers: Option<seq<string>>)
  datatype StatusValue =
    StatusValue(replicas: int, version: string, state: string, kubeconfig: string, nodes: Option<seq<VMStatus>>)
  datatype Value =
    | SetValue(meta: MetaValue, spec: NodeSetSpec, status: StatusValue)
    | PoolValue(meta: MetaValue, spec: NodeSetSpec, nodeSetName: string, vmReplicas: int, status: StatusValue)
    | PlaneValue(meta: MetaValue, planeSpec: PlaneSpec, version: string, state: string, nodes: Option<seq<VMStatus>>)

  /** A slice's elements; a nil slice is not an empty one. */
  ghost function Elements<T>(slice: array?<T>): Option<seq<T>>
    reads slice
  {
    if slice == null then None else Some(slice[..])
  }

  ghost function Number(cell: Cell?<int>): Option<int>
    reads cell
  {
    if cell == null then None else Some(cell.value)
  }

  ghost function MetaOf(m: Meta): MetaValue
    reads m.finalizers
  {
    MetaValue(m.name, Elements(m.finalizers))
  }

  ghost function SpecOf(s: Spec): NodeSetSpec
    reads s.replicas
  {
    NodeSetSpec(s.version, Number(s.replicas), s.sku)
  }

  ghost function StatusOf(s: Status): StatusValue
    reads s.nodes
  {
    StatusValue(s.replicas, s.version, s.state, s.kubeconfig, Elements(s.nodes))
  }

  ghost function ValueOf(o: Struct): Value
    reads Cells(o)
  {
    match o
    case SetStruct(meta, spec, status) => SetValue(MetaOf(meta), SpecOf(spec), StatusOf(status))
    case PoolStruct(meta, spec, status) =>
      PoolValue(MetaOf(meta), SpecOf(spec), status.nodeSetName, status.vmReplicas, StatusOf(status.status))
    case PlaneStruct(meta, spec, status) =>
      PlaneValue(MetaOf(meta), spec, status.version, status.state, Elements(status.nodes))
  }

  // ---------- The memory behind a struct ----------

  ghost function Reached(o: object?): set<object> {
    if o == null then {} else {o}
  }

  ghost function Cells(o: Struct): set<object> {
    match o
    case SetStruct(meta, spec, status) => Reached(meta.finalizers) + Reached(spec.replicas) + Reached(status.nodes)
    case PoolStruct(meta, spec, status) =>
      Reached(meta.finalizers) + Reached(spec.replicas) + Reached(status.status.nodes)
    case PlaneStruct(meta, _, status) => Reached(meta.finalizers) + Reached(status.nodes)
  }

  // ---------- Copying ----------

  /** A slice's copy: nil for nil, otherwise a new slice with the same elements in the same order. */
  ghost predicate SameElements<T>(out: array?<T>, slice: array?<T>)
    reads out, slice
  {
    (out == null <==> slice == null) && (slice != null ==> out[..] == slice[..])
  }

  ghost predicate SameNumber(out: Cell?<int>, cell: Cell?<int>)
    reads out, cell
  {
    (out == null <==> cell == null) && (cell != null ==> out.value == cell.value)
  }

  method CopySlice<T>(slice: array?<T>) returns (out: array?<T>)
    ensures Elements(out) == Elements(slice) && fresh(Reached(out))
    ensures SameElements(out, slice) && (out != null ==> fresh(out))
  {
    if slice == null {
      return null;
    }
    out := new T[slice.Length](i requires 0 <= i < slice.Length reads slice => slice[i]);
    assert out[..] == slice[..];
  }

  method CopyMeta(m: Meta) returns (out: Meta)
    ensures MetaOf(out) == MetaOf(m) && fresh(Reached(out.finalizers))
    ensures out.name == m.name && SameElements(out.finalizers, m.finalizers)
    ensures out.finalizers != null ==> fresh(out.finalizers)
  {
    out := m;
    var finalizers := CopySlice(m.finalizers);
    out := out.(finalizers := finalizers);
  }

  method CopySpec(s: Spec) returns (out: Spec)
    ensures SpecOf(out) == SpecOf(s) && fresh(Reached(out.replicas))
    ensures out == Spec(s.version, out.replicas, s.sku) && SameNumber(out.replicas, s.replicas)
    ensures out.replicas != null ==> fresh(out.replicas)
  {
    out := s;
    if s.replicas != null {
      var replicas := new Cell(s.replicas.value);
      out := out.(replicas := replicas);
    }
  }

  method CopyStatus(s: Status) returns (out: Status)
    ensures StatusOf(out) == StatusOf(s) && fresh(Reached(out.nodes))
    ensures out == Status(s.replicas, s.version, s.state, s.kubeconfig, out.nodes) && SameElements(out.nodes, s.nodes)
    ensures out.nodes != null ==> fresh(out.nodes)
  {
    out := s;
    var nodes := CopySlice(s.nodes);
    out := out.(nodes := nodes);
  }

  /** A copy says the same, field by field, and all memory behind it is new. */
  method CopyInto(o: Struct) returns (out: Struct)
    ensures ValueOf(out) == ValueOf(o) && fresh(Cells(out))
    ensures out.meta.name == o.meta.name && SameElements(out.meta.finalizers, o.meta.finalizers)
    ensures o.SetStruct? ==>
      && out.SetStruct? && out.spec == Spec(o.spec.version, out.spec.replicas, o.spec.sku)
      && SameNumber(out.spec.replicas, o.spec.replicas) && SameElements(out.status.nodes, o.status.nodes)
      && out.status == o.status.(nodes := out.status.nodes)
    ensures o.PoolStruct? ==>
      && out.PoolStruct? && out.spec == Spec(o.spec.version, out.spec.replicas, o.spec.sku)
      && SameNumber(out.spec.replicas, o.spec.replicas)
      && SameElements(out.poolStatus.status.nodes, o.poolStatus.status.nodes)
      && out.poolStatus == o.poolStatus.(status := o.poolStatus.status.(nodes := out.poolStatus.status.nodes))
    ensures o.PlaneStruct? ==>
      && out.PlaneStruct? && out.planeSpec == o.planeSpec && SameElements(out.planeStatus.nodes, o.planeStatus.nodes)
      && out.planeStatus == o.planeStatus.(nodes := out.planeStatus.nodes)
    ensures out.meta.finalizers != null ==> fresh(out.meta.finalizers)
    ensures (out.SetStruct? || out.PoolStruct?) && out.spec.replicas != null ==> fresh(out.spec.replicas)
    ensures out.SetStruct? && out.status.nodes != null ==> fresh(out.status.nodes)
    ensures out.PoolStruct? && out.poolStatus.status.nodes != null ==> fresh(out.poolStatus.status.nodes)
    ensures out.PlaneStruct? && out.planeStatus.nodes != null ==> fresh(out.planeStatus.nodes)
  {
    out := o;
    var meta := CopyMeta(o.meta);
    out := out.(meta := meta);
    match o {
      case SetStruct(_, _, _) =>
        var spec := CopySpec(o.spec);
        var status := CopyStatus(o.status);
        out := out.(spec := spec, status := status);
      case PoolStruct(_, _, _) =>
        var spec := CopySpec(o.spec);
        var status := CopyStatus(o.poolStatus.status);
        out := out.(spec := spec, poolStatus := out.poolStatus.(status := status));
      case PlaneStruct(_, _, _) =>
        var nodes := CopySlice(o.planeStatus.nodes);
        out := out.(planeStatus := out.planeStatus.(nodes := nodes));
    }
  }

  method DeepCopy(o: Cell?<Struct>) returns (out: Cell?<Struct>)
    ensures out == null <==> o == null
    ensures o != null ==> ValueOf(out.value) == ValueOf(o.value) && fresh(Reached(out) + Cells(out.value))
  {
    if o == null {
      return null;
    }
    var copy := CopyInto(o.value);
    out := new Cell(copy);
  }

  // ---------- Lists ----------

  ghost predicate Known(items: array<Struct>, values: seq<Value>)
    reads items, set i, o | 0 <= i < items.Length && o in Cells(items[i]) :: o
  {
    |values| == items.Length && forall i | 0 <= i < items.Length :: ValueOf(items[i]) == values[i]
  }

  /** The first slots say these values, each in memory of its own. */
  ghost predicate Separate(out: array<Struct>, values: seq<Value>, cells: seq<set<object>>)
    requires |cells| <= out.Length && |cells| <= |values|
    reads out, set i, o | 0 <= i < |cells| && i < out.Length && o in Cells(out[i]) :: o
  {
    && (forall i | 0 <= i < |cells| :: ValueOf(out[i]) == values[i] && Cells(out[i]) == cells[i] && out !in cells[i])
    && (forall i, j | 0 <= i < j < |cells| :: cells[i] !! cells[j])
  }

  method Store(out: array<Struct>, k: nat, copy: Struct, ghost values: seq<Value>, ghost cells: seq<set<object>>)
    requires |cells| == k < out.Length && k < |values| && Separate(out, values, cells)
    requires ValueOf(copy) == values[k] && out !in Cells(copy)
    requires forall i | 0 <= i < k :: cells[i] !! Cells(copy)
    modifies out
    ensures Separate(out, values, cells + [Cells(copy)])
  {
    out[k] := copy;
  }

  method CopyAt(o: Struct, out: array<Struct>, k: nat, ghost values: seq<Value>, ghost cells: seq<set<object>>)
    returns (ghost new': set<object>)
    requires |cells| == k < out.Length && k < |values| && Separate(out, values, cells) && ValueOf(o) == values[k]
    modifies out
    ensures Separate(out, values, cells + [new']) && fresh(new')
  {
    var copy := CopyInto(o);
    new' := Cells(copy);
    forall i | 0 <= i < k ensures cells[i] !! new' {
      assert cells[i] == Cells(out[i]);
    }
    Store(out, k, copy, values, cells);
  }

  /** The items of a copied list say the same, and no two of them share memory, whatever those of the source do. */
  method CopyItems(items: array<Struct>, ghost values: seq<Value>)
    returns (out: array<Struct>, ghost cells: seq<set<object>>)
    requires Known(items, values)
    ensures fresh(out) && out.Length == items.Length == |cells| && Separate(out, values, cells)
    ensures forall i | 0 <= i < |cells| :: fresh(cells[i])
  {
    var blank := PlaneStruct(Meta("", null), PlaneSpec("", ""), PlaneStatus("", "", null));
    out := new Struct[items.Length](_ => blank);
    cells := [];
    for k := 0 to items.Length
      invariant |cells| == k && Separate(out, values, cells)
      invariant forall i | 0 <= i < k :: fresh(cells[i])
    {
      ghost var new' := CopyAt(items[k], out, k, values, cells);
      cells := cells + [new'];
    }
  }

  /** A list: its items' structs lie in the slots of one slice. */
  datatype List = List(version: string, items: array?<Struct>)

  method DeepCopyList(list: List, ghost values: seq<Value>) returns (out: List, ghost cells: seq<set<object>>)
    requires list.items != null ==> Known(list.items, values)
    ensures out.version == list.version && (out.items == null <==> list.items == null)
    ensures list.items != null ==>
      && fresh(out.items) && out.items.Length == |cells| == |values| && Separate(out.items, values, cells)
      && forall i | 0 <= i < |cells| :: fresh(cells[i])
  {
    out, cells := list, [];
    if list.items != null {
      var items;
      items, cells := CopyItems(list.items, values);
      out := out.(items := items);
    }
  }

  // ---------- Later writes ----------

  /** Any write whatever to the memory behind one struct leaves what another says alone, when they share none. */
  method WriteBehind(written: Struct, other: Struct)
    requires Cells(written) !! Cells(other)
    modifies Cells(written)
    ensures ValueOf(other) == old(ValueOf(other))
  {
    modify Cells(written);
  }

  /** A copy and its source after any writes to either: the other side still says what it said. */
  method CopyThenWrite(o: Struct, toCopy: bool) returns (out: Struct)
    modifies Cells(o)
    ensures if toCopy then ValueOf(o) == old(ValueOf(o)) else ValueOf(out) == old(ValueOf(o))
  {
    out := CopyInto(o);
    if toCopy {
      WriteBehind(out, o);
    } else {
      WriteBehind(o, out);
    }
  }

  /** Writes behind one item of a copied list leave the other items alone. */
  method WriteItem(out: array<Struct>, i: nat, j: nat, ghost values: seq<Value>, ghost cells: seq<set<object>>)
    requires |cells| == |values| == out.Length && Separate(out, values, cells) && i < out.Length && j < out.Length && i != j
    modifies cells[i]
    ensures ValueOf(out[j]) == values[j]
  {
    WriteBehind(out[i], out[j]);
  }

  // ---------- Cluster ----------

  /** Of a cluster's struct, only the discovery hashes are behind a reference. */
  datatype ClusterStruct = ClusterStruct(meta: Meta, clusterName: string, discoveryHashes: array?<string>, state: string)

  ghost function ClusterCells(c: ClusterStruct): set<object> {
    Reached(c.meta.finalizers) + Reached(c.discoveryHashes)
  }

  method CopyCluster(c: ClusterStruct) returns (out: ClusterStruct)
    ensures MetaOf(out.meta) == MetaOf(c.meta) && fresh(Reached(out.meta.finalizers))
    ensures out == c.(meta := out.meta) && out.meta.name == c.meta.name
    ensures SameElements(out.meta.finalizers, c.meta.finalizers)
    ensures out.meta.finalizers != null ==> fresh(out.meta.finalizers)
  {
    out := c;
    var meta := CopyMeta(c.meta);
    out := out.(meta := meta);
  }

  /** The copy of a cluster shares memory with its source exactly when there is a slice of hashes. */
  method ClusterCopyShares(c: ClusterStruct) returns (out: ClusterStruct)
    ensures (ClusterCells(out) !! ClusterCells(c)) <==> c.discoveryHashes == null
  {
    out := CopyCluster(c);
  }

  /** A hash written to the copy is written to the source. */
  method WriteThroughCopy(c: ClusterStruct, hash: string) returns (out: ClusterStruct)
    requires c.discoveryHashes != null && c.discoveryHashes.Length > 0
    modifies c.discoveryHashes
    ensures c.discoveryHashes[0] == hash && Elements(out.discoveryHashes) == Elements(c.discoveryHashes)
  {
    out := CopyCluster(c);
    out.discoveryHashes[0] := hash;
  }
}
