/**
 * internal/example/v1alpha1/example.go (with the v1beta1 version as a
 * registration fixture): the ExampleResource's descriptor methods and its
 * table conversion.
 */
module Example {
  import opened Wrappers
  import opened Schema
  import opened Storage
  import opened Resource
  import opened RestProvider
  import opened Register
  import opened Builder

  datatype ExampleResource = ExampleResource(name: string)
  datatype ExampleResourceList = ExampleResourceList(items: seq<ExampleResource>)

  datatype Column = Column(name: string, columnType: string, format: string, description: string)
  datatype Row = Row(cells: seq<string>, item: ExampleResource)
  datatype Table = Table(columns: seq<Column>, rows: seq<Row>)

  /** The single column both tables use. */
  const Definitions: seq<Column> := [Column("Name", "string", "name", "the name of the cluster")]

  /** GetGroupVersionResource of v1alpha1 */
  const V1alpha1GVR := GroupVersionResource("example.com", "v1alpha1", "exampleresources")
  /** GetGroupVersionResource of v1beta1 */
  const V1beta1GVR := GroupVersionResource("example.com", "v1beta1", "exampleresources")

  const AlphaType := GoType("v1alpha1.ExampleResource", true)
  const AlphaListType := GoType("v1alpha1.ExampleResourceList", true)
  const BetaType := GoType("v1beta1.ExampleResource", true)
  const BetaListType := GoType("v1beta1.ExampleResourceList", true)

  /** v1alpha1.ExampleResource as the builder sees it: the storage version, namespaced, no subresources. */
  const V1alpha1 := ResourceObject(V1alpha1GVR, AlphaType, AlphaType, AlphaListType, true, None, false,
                                   false, None, false, None, false, Nil)

  /** v1beta1.ExampleResource: not the storage version, converted to and from v1alpha1. */
  const V1beta1 := ResourceObject(V1beta1GVR, BetaType, BetaType, BetaListType, false, Some(AlphaType), false,
                                  false, None, false, None, false, Nil)

  /** printResource: one cell, the name, and the resource itself as the row's object. */
  function PrintResource(c: ExampleResource): (row: Row)
    ensures |row.cells| == 1 && row.cells[0] == c.name && row.item == c
  {
    Row([c.name], c)
  }

  /** ExampleResource.ConvertToTable: the Name column and exactly one row, for the resource. */
  function ConvertToTable(c: ExampleResource): (t: Table)
    ensures t.columns == Definitions && |t.rows| == 1 && t.rows[0].cells == [c.name] && t.rows[0].item == c
  {
    Table(Definitions, [PrintResource(c)])
  }

  /**
   * ExampleResourceList.ConvertToTable, with each row's object being its
   * own item: the Name column and one row per item, in item order.
   */
  method ConvertListToTable(l: ExampleResourceList) returns (t: Table)
    ensures t.columns == Definitions && |t.rows| == |l.items|
    ensures forall k :: 0 <= k < |l.items| ==> t.rows[k].cells == [l.items[k].name] && t.rows[k].item == l.items[k]
  {
    var rows: seq<Row> := [];
    for k := 0 to |l.items|
      invariant |rows| == k
      invariant forall j :: 0 <= j < k ==> rows[j] == PrintResource(l.items[j])
    {
      rows := rows + [PrintResource(l.items[k])];
    }
    t := Table(Definitions, rows);
  }

  /** The range variable `c` of the list conversion, whose address each row keeps. */
  class LoopVariable {
    var value: ExampleResource
    constructor ()
      ensures value == ExampleResource("")
    {
      value := ExampleResource("");
    }
  }

  /** A row as the list conversion builds it: the name, and a pointer to the range variable. */
  datatype AliasedRow = AliasedRow(cells: seq<string>, target: LoopVariable)

  /**
   * ExampleResourceList.ConvertToTable as written: with one range variable
   * for the whole loop, every row points to it, and once the loop is over it
   * holds the last item. The names are copied and come out right.
   */
  method ConvertListToTableAsWritten(l: ExampleResourceList) returns (rows: seq<AliasedRow>, c: LoopVariable)
    ensures |rows| == |l.items|
    ensures forall k :: 0 <= k < |rows| ==> rows[k].cells == [l.items[k].name] && rows[k].target == c
    ensures |l.items| > 0 ==> c.value == l.items[|l.items| - 1]
    ensures |l.items| > 0 ==> forall k :: 0 <= k < |rows| ==> rows[k].target.value == AliasedObjects(l.items)[k]
    ensures |l.items| == 2 && l.items[0] != l.items[1] ==> rows[0].target.value != l.items[0]
  {
    c := new LoopVariable();
    rows := [];
    for k := 0 to |l.items|
      invariant |rows| == k
      invariant forall j :: 0 <= j < k ==> rows[j].cells == [l.items[j].name] && rows[j].target == c
      invariant k > 0 ==> c.value == l.items[k - 1]
    {
      c.value := l.items[k];
      rows := rows + [AliasedRow([c.value.name], c)];
    }
  }

  /** What the rows' objects show after the list conversion as written: the last item, in every row. */
  function AliasedObjects(items: seq<ExampleResource>): (r: seq<ExampleResource>)
    requires |items| > 0
    ensures |r| == |items| && forall k :: 0 <= k < |r| ==> r[k] == items[|items| - 1]
  {
    seq(|items|, k requires 0 <= k < |items| => items[|items| - 1])
  }

  /** With two differently named items, the first row's object is the second item. */
  lemma AliasedRowsShowLastItem(a: ExampleResource, b: ExampleResource)
    requires a != b
    ensures AliasedObjects([a, b])[0] == b && AliasedObjects([a, b]) != [a, b]
  {
    assert AliasedObjects([a, b])[0] == b;
  }

  /** The two versions share one group-resource, so the second one shares the first one's storage. */
  lemma VersionsShareStorage()
    ensures V1alpha1.gvr.ToGroupResource() == V1beta1.gvr.ToGroupResource() == GroupResource("example.com", "exampleresources")
    ensures V1alpha1.gvr.ToGroupVersion() != V1beta1.gvr.ToGroupVersion()
  {
  }

  /**
   * Registering v1alpha1 and then v1beta1 succeeds: both are known under
   * their own versions, v1alpha1 also under example.com/__internal, and the
   * two conversions between them are added.
   */
  lemma ExampleVersionsRegister(st: SchemeState)
    ensures var r := RegisterObjects(st, [V1alpha1, V1beta1]);
      && r.1.None?
      && (GroupVersion("example.com", "v1alpha1"), AlphaType) in r.0.known
      && (GroupVersion("example.com", "v1beta1"), BetaType) in r.0.known
      && (GroupVersion("example.com", APIVersionInternal), AlphaType) in r.0.known
      && r.0.conversions == st.conversions + [(BetaType, AlphaType), (AlphaType, BetaType)]
  {
    assert [V1alpha1, V1beta1][..1] == [V1alpha1];
    assert [V1alpha1][..0] == [];
    var first := RegisterObjects(st, [V1alpha1]);
    assert RegisterObjects(st, []) == (st, None);
    assert first == RegisterObject(st, V1alpha1);
    assert first.1.None?;
    ConversionsBothWays(first.0, V1beta1);
    assert RegisterObjects(st, [V1alpha1, V1beta1]) == RegisterObject(first.0, V1beta1);
  }

  /**
   * ExampleServer_WithResource: v1alpha1 and then v1beta1 on a new server.
   * The first version is routed to its own store; the second only to the
   * singleton's Get for the shared group-resource.
   */
  method ExampleServerWithResource(scheme: Scheme) returns (s: Server)
    ensures s.apis == map[V1alpha1GVR := DefaultStore(V1alpha1), V1beta1GVR := SingletonGet(GroupResource("example.com", "exampleresources"))]
    ensures s.orderedGroupVersions == [V1alpha1GVR.ToGroupVersion(), V1beta1GVR.ToGroupVersion()]
    ensures s.storageProvider.Keys == {GroupResource("example.com", "exampleresources")}
    ensures s.schemeBuilder == [ObjectsStep([V1alpha1]), ObjectsStep([V1beta1])]
    ensures s.errs == [] && !s.exited
  {
    s := new Server(scheme);
    s.WithResource(V1alpha1);
    assert SubResourceRoutes(V1alpha1, DefaultStore(V1alpha1)) == [];
    s.WithResource(V1beta1);
  }
}
