/** collector/cloudassets.go: the five-list revision of CloudAssets, its
    envelope walker, its dispatcher and its label projection entry point. */
module CloudAssetsFull {
  import opened Errors
  import opened JsonValue
  import opened KubecostApi
  import opened Envelope
  import opened AssetLabels

  /** addAccordingType's switch in this revision. "ClusterManagement"
      entries go to the load-balancer list; nothing goes to `cm`. */
  function KindRoute(kind: string): (r: Option<ListKind>)
    ensures r != Some(CmList)
    ensures r.Some? <==> kind in ["Disk", "Cloud", "Node", "LoadBalancer", "ClusterManagement"]
    ensures kind == "ClusterManagement" ==> r == Some(LbList)
  {
    if kind == "Disk" then Some(DiskList)
    else if kind == "Cloud" then Some(CloudList)
    else if kind == "Node" then Some(NodeList)
    else if kind == "LoadBalancer" || kind == "ClusterManagement" then Some(LbList)
    else None
  }

  /** The receiver's lists as one value. */
  datatype Lists = Lists(disk: seq<AssetRecord>, cloud: seq<AssetRecord>, node: seq<AssetRecord>,
                         lb: seq<AssetRecord>, cm: seq<AssetRecord>)
  {
    /** The lists after appending the found records to the lists they are
        tagged with. */
    function Extend(found: seq<Found>): Lists
    {
      Lists(disk + Records(found, DiskList), cloud + Records(found, CloudList),
            node + Records(found, NodeList), lb + Records(found, LbList), cm + Records(found, CmList))
    }
  }

  lemma ExtendConcat(l: Lists, a: seq<Found>, b: seq<Found>)
    ensures l.Extend(a + b) == l.Extend(a).Extend(b)
  {
    AppendRecords(l.disk, a, b, DiskList);
    AppendRecords(l.cloud, a, b, CloudList);
    AppendRecords(l.node, a, b, NodeList);
    AppendRecords(l.lb, a, b, LbList);
    AppendRecords(l.cm, a, b, CmList);
  }

  lemma ExtendEmpty(l: Lists)
    ensures l.Extend([]) == l
  {
    assert l.disk + [] == l.disk && l.cloud + [] == l.cloud && l.node + [] == l.node;
    assert l.lb + [] == l.lb && l.cm + [] == l.cm;
  }

  /** Extending by one found record appends it to its own list only. */
  lemma ExtendOne(l: Lists, k: ListKind, r: AssetRecord)
    ensures l.Extend([(k, r)]) ==
              match k
              case DiskList => l.(disk := l.disk + [r])
              case CloudList => l.(cloud := l.cloud + [r])
              case NodeList => l.(node := l.node + [r])
              case LbList => l.(lb := l.lb + [r])
              case CmList => l.(cm := l.cm + [r])
  {
    var f: seq<Found> := [(k, r)];
    assert f[1..] == [];
    assert l.disk + [] == l.disk && l.cloud + [] == l.cloud && l.node + [] == l.node;
    assert l.lb + [] == l.lb && l.cm + [] == l.cm;
  }

  class CloudAssets {
    var cloud: seq<AssetRecord>
    var disk: seq<AssetRecord>
    var node: seq<AssetRecord>
    var lb: seq<AssetRecord>
    var cm: seq<AssetRecord>

    function Contents(): Lists
      reads this
    {
      Lists(disk, cloud, node, lb, cm)
    }

    /** NewCloudAssets: every list starts empty (lb and cm as nil slices). */
    constructor ()
      ensures Contents() == Lists([], [], [], [], [])
    {
      cloud, disk, node, lb, cm := [], [], [], [], [];
    }

    method AddDisk(d: AssetRecord)
      modifies this
      ensures Contents() == old(Contents()).(disk := old(disk) + [d])
    {
      disk := disk + [d];
    }

    method AddCloud(c: AssetRecord)
      modifies this
      ensures Contents() == old(Contents()).(cloud := old(cloud) + [c])
    {
      cloud := cloud + [c];
    }

    method AddNode(n: AssetRecord)
      modifies this
      ensures Contents() == old(Contents()).(node := old(node) + [n])
    {
      node := node + [n];
    }

    method AddLoadBalancer(l: AssetRecord)
      modifies this
      ensures Contents() == old(Contents()).(lb := old(lb) + [l])
    {
      lb := lb + [l];
    }

    method AddClusterManagement(c: AssetRecord)
      modifies this
      ensures Contents() == old(Contents()).(cm := old(cm) + [c])
    {
      cm := cm + [c];
    }

    /** AddDiskFromMap: the decoded record is appended even when decoding
        reported an error, and that error is returned. */
    method AddDiskFromMap(asset: seq<(string, Json)>) returns (err: Option<Error>)
      modifies this
      ensures Contents() == old(Contents()).(disk := old(disk) + [DecodeAsset(asset).value])
      ensures err == DecodeAsset(asset).err
    {
      var decoded := DecodeAsset(asset);
      AddDisk(decoded.value);
      err := decoded.err;
    }

    method AddCloudFromMap(asset: seq<(string, Json)>) returns (err: Option<Error>)
      modifies this
      ensures Contents() == old(Contents()).(cloud := old(cloud) + [DecodeAsset(asset).value])
      ensures err == DecodeAsset(asset).err
    {
      var decoded := DecodeAsset(asset);
      AddCloud(decoded.value);
      err := decoded.err;
    }

    method AddNodeFromMap(asset: seq<(string, Json)>) returns (err: Option<Error>)
      modifies this
      ensures Contents() == old(Contents()).(node := old(node) + [DecodeAsset(asset).value])
      ensures err == DecodeAsset(asset).err
    {
      var decoded := DecodeAsset(asset);
      AddNode(decoded.value);
      err := decoded.err;
    }

    method AddLoadBalancerFromMap(asset: seq<(string, Json)>) returns (err: Option<Error>)
      modifies this
      ensures Contents() == old(Contents()).(lb := old(lb) + [DecodeAsset(asset).value])
      ensures err == DecodeAsset(asset).err
    {
      var decoded := DecodeAsset(asset);
      AddLoadBalancer(decoded.value);
      err := decoded.err;
    }

    method AddClusterManagementFromMap(asset: seq<(string, Json)>) returns (err: Option<Error>)
      modifies this
      ensures Contents() == old(Contents()).(cm := old(cm) + [DecodeAsset(asset).value])
      ensures err == DecodeAsset(asset).err
    {
      var decoded := DecodeAsset(asset);
      AddClusterManagement(decoded.value);
      err := decoded.err;
    }

    /** The Add*FromMap of one list. */
    method AddFromMap(k: ListKind, asset: seq<(string, Json)>) returns (err: Option<Error>)
      modifies this
      ensures Contents() == old(Contents()).Extend([(k, DecodeAsset(asset).value)])
      ensures err == DecodeAsset(asset).err
    {
      ExtendOne(Contents(), k, DecodeAsset(asset).value);
      match k {
        case DiskList => err := AddDiskFromMap(asset);
        case CloudList => err := AddCloudFromMap(asset);
        case NodeList => err := AddNodeFromMap(asset);
        case LbList => err := AddLoadBalancerFromMap(asset);
        case CmList => err := AddClusterManagementFromMap(asset);
      }
    }

    /** addAccordingType: append according to KindRoute, or fail on a
        missing "type"; the Add*FromMap errors are dropped. */
    method AddAccordingType(asset: seq<(string, Json)>) returns (err: Option<Error>)
      modifies this
      ensures Contents() == old(Contents()).Extend(AccordingType(KindRoute, asset).found)
      ensures err == AccordingType(KindRoute, asset).err
    {
      var valType := Lookup(asset, "type");
      if valType.None? {
        assert AccordingType(KindRoute, asset).found == [];
        return Some(MissingTypeField);
      }
      if valType.value.JString? && KindRoute(valType.value.s).Some? {
        var ignored := AddFromMap(KindRoute(valType.value.s).value, asset);
      } else {
        assert AccordingType(KindRoute, asset).found == [];
        ExtendEmpty(Contents());
      }
      err := None;
    }

    /** MapAssets: walk the response and append what Walk finds; return the
        walk's error. The cm list is never touched. */
    method MapAssets(value: Json) returns (err: Option<Error>)
      modifies this
      ensures Contents() == old(Contents()).Extend(Walk(KindRoute, value).found)
      ensures err == Walk(KindRoute, value).err
      ensures cm == old(cm)
      decreases value, 2
    {
      match value {
        case JArray(_) => err := MapItems(value);
        case JObject(_) => err := MapFields(value);
        case _ =>
          ExtendEmpty(old(Contents()));
          err := Some(UnknownMapType);
      }
      UnroutedListUntouched(KindRoute, value, CmList);
    }

    /** The array case of MapAssets: every element is walked, and the
        elements' errors are dropped. */
    method MapItems(value: Json) returns (err: Option<Error>)
      requires value.JArray?
      modifies this
      ensures Contents() == old(Contents()).Extend(Walk(KindRoute, value).found)
      ensures err == Walk(KindRoute, value).err
      decreases value, 1
    {
      var items := value.items;
      ghost var added: seq<Found> := [];
      for i := 0 to |items|
        invariant Contents() == old(Contents()).Extend(added)
        invariant Walk(KindRoute, value).found == added + WalkItems(KindRoute, value, i)
      {
        var ignored := MapAssets(items[i]);
        ghost var step := Walk(KindRoute, items[i]).found;
        ExtendConcat(old(Contents()), added, step);
        ItemsStep(KindRoute, value, i, added, Walk(KindRoute, value).found);
        added := added + step;
      }
      assert added + [] == added;
      err := None;
    }

    /** One entry of the object loop of MapAssets. */
    method MapEntry(value: Json, i: nat) returns (err: Option<Error>)
      requires value.JObject? && i < |value.fields|
      modifies this
      ensures Contents() == old(Contents()).Extend(WalkEntry(KindRoute, value, i).found)
      ensures err == WalkEntry(KindRoute, value, i).err
      ensures err.Some? ==> WalkEntry(KindRoute, value, i).found == []
      decreases value, 0
    {
      assert value.fields[i] in value.fields;
      var (k, v) := value.fields[i];
      if k == "data" {
        var ignored := MapAssets(v);
        err := None;
      } else if v.JObject? {
        err := AddAccordingType(v.fields);
      } else {
        ExtendEmpty(Contents());
        err := None;
      }
    }

    /** The object case of MapAssets: "data" is walked with its error
        dropped, an object-valued entry is dispatched and its error ends the
        loop, anything else is skipped. */
    method MapFields(value: Json) returns (err: Option<Error>)
      requires value.JObject?
      modifies this
      ensures Contents() == old(Contents()).Extend(Walk(KindRoute, value).found)
      ensures err == Walk(KindRoute, value).err
      decreases value, 1
    {
      var fields := value.fields;
      ghost var total := Walk(KindRoute, value);
      ghost var added: seq<Found> := [];
      for i := 0 to |fields|
        invariant Contents() == old(Contents()).Extend(added)
        invariant total == Then(WalkResult(added, None), WalkFields(KindRoute, value, i))
      {
        var e := MapEntry(value, i);
        if e.Some? {
          FieldsStop(KindRoute, value, i, added, total);
          return e;
        }
        ExtendConcat(old(Contents()), added, WalkEntry(KindRoute, value, i).found);
        FieldsStep(KindRoute, value, i, added, total);
        added := added + WalkEntry(KindRoute, value, i).found;
      }
      assert added + [] == added;
      err := None;
    }
  }

  /** GetDefaultLabelsFromAssets: the five record types are projected by
      their getDefaultLabelsFor*; any other value gives no labels and no
      error. */
  function GetDefaultLabelsFromAssets(asset: Asset): (r: Projection)
    ensures asset.OtherValue? ==> r == Projection([], [], None)
    ensures asset.AsDisk? ==> r == DefaultLabels(asset.disk)
    ensures asset.AsCloud? ==> r == DefaultLabels(asset.cloud)
    ensures asset.AsNode? ==> r == DefaultLabels(asset.node)
    ensures asset.AsLoadBalancer? ==> r == DefaultLabels(asset.lb)
    ensures asset.AsClusterManagement? ==> r == DefaultLabels(asset.cm)
  {
    match asset
    case AsDisk(d) => DefaultLabels(d)
    case AsCloud(c) => DefaultLabels(c)
    case AsNode(n) => DefaultLabels(n)
    case AsLoadBalancer(l) => DefaultLabels(l)
    case AsClusterManagement(c) => DefaultLabels(c)
    case OtherValue => Projection([], [], None)
  }

  /** After a walk each list holds only records of its own "type": disks
      are "Disk", clouds "Cloud", nodes "Node", load balancers
      "LoadBalancer" or "ClusterManagement"; cm receives nothing. */
  lemma WalkSortsByType(v: Json)
    ensures var found := Walk(KindRoute, v).found;
            (forall r :: r in Records(found, DiskList) ==> r.kind == "Disk") &&
            (forall r :: r in Records(found, CloudList) ==> r.kind == "Cloud") &&
            (forall r :: r in Records(found, NodeList) ==> r.kind == "Node") &&
            (forall r :: r in Records(found, LbList) ==> r.kind == "LoadBalancer" || r.kind == "ClusterManagement") &&
            Records(found, CmList) == []
  {
    WalkRoutes(KindRoute, v);
    SortedByType(Walk(KindRoute, v).found);
    UnroutedListUntouched(KindRoute, v, CmList);
  }

  /** Records routed by KindRoute land in the list of their "type". */
  lemma SortedByType(found: seq<Found>)
    requires RoutedAsFound(KindRoute, found)
    ensures forall r :: r in Records(found, DiskList) ==> r.kind == "Disk"
    ensures forall r :: r in Records(found, CloudList) ==> r.kind == "Cloud"
    ensures forall r :: r in Records(found, NodeList) ==> r.kind == "Node"
    ensures forall r :: r in Records(found, LbList) ==> r.kind == "LoadBalancer" || r.kind == "ClusterManagement"
  {
    ListKinds(found, DiskList, ["Disk"]);
    ListKinds(found, CloudList, ["Cloud"]);
    ListKinds(found, NodeList, ["Node"]);
    ListKinds(found, LbList, ["LoadBalancer", "ClusterManagement"]);
  }

  /** A list receives only records whose "type" routes to it. */
  lemma ListKinds(found: seq<Found>, k: ListKind, kinds: seq<string>)
    requires RoutedAsFound(KindRoute, found)
    requires forall s :: KindRoute(s) == Some(k) ==> s in kinds
    ensures forall r :: r in Records(found, k) ==> r.kind in kinds
  {
    RecordsRouted(KindRoute, found, k);
  }

  /** Dispatch in this revision: a missing "type" is an error; one of the
      five known strings appends exactly one record, to its own list
      ("ClusterManagement" to lb); any other value appends nothing. */
  lemma DispatchCases(asset: seq<(string, Json)>)
    ensures Lookup(asset, "type").None? ==> AccordingType(KindRoute, asset) == WalkResult([], Some(MissingTypeField))
    ensures Lookup(asset, "type") == Some(JString("Disk")) ==>
              AccordingType(KindRoute, asset) == WalkResult([(DiskList, DecodeAsset(asset).value)], None)
    ensures Lookup(asset, "type") == Some(JString("Cloud")) ==>
              AccordingType(KindRoute, asset) == WalkResult([(CloudList, DecodeAsset(asset).value)], None)
    ensures Lookup(asset, "type") == Some(JString("Node")) ==>
              AccordingType(KindRoute, asset) == WalkResult([(NodeList, DecodeAsset(asset).value)], None)
    ensures Lookup(asset, "type") == Some(JString("LoadBalancer")) ==>
              AccordingType(KindRoute, asset) == WalkResult([(LbList, DecodeAsset(asset).value)], None)
    ensures Lookup(asset, "type") == Some(JString("ClusterManagement")) ==>
              AccordingType(KindRoute, asset) == WalkResult([(LbList, DecodeAsset(asset).value)], None)
    ensures Lookup(asset, "type").Some? &&
            Lookup(asset, "type").value !in
              [JString("Disk"), JString("Cloud"), JString("Node"), JString("LoadBalancer"), JString("ClusterManagement")] ==>
              AccordingType(KindRoute, asset) == WalkResult([], None)
  {
    var t := Lookup(asset, "type");
    if t.Some? && t.value.JString? {
      var k := KindRoute(t.value.s);
      if k.Some? {
        assert AccordingType(KindRoute, asset) == WalkResult([(k.value, DecodeAsset(asset).value)], None);
      } else {
        assert t.value.s !in ["Disk", "Cloud", "Node", "LoadBalancer", "ClusterManagement"];
      }
    }
  }

  // ---- An example envelope ----

  const ExampleAsset: seq<(string, Json)> :=
    [("type", JString("Disk")), ("totalCost", JNumber(12.5)),
     ("properties", JObject([("cluster", JString("prod"))])), ("labels", JObject([]))]

  const ExampleEnvelope: Json := JObject([("data", JObject([("a1", JObject(ExampleAsset))]))])

  const ExampleRecord := AssetRecord("Disk", Some(ExampleProperties), [], 12.5)

  lemma ExamplePropertiesDecode()
    ensures DecodePropertiesObject([("cluster", JString("prod"))]) == Decoded(ExampleProperties, None)
  {
    var props := [("cluster", JString("prod"))];
    assert Lookup(props, "cluster") == Some(JString("prod"));
    forall key | key in ["category", "provider", "account", "project", "service", "name", "providerID"]
      ensures Lookup(props, key) == None
    {
      assert key != "cluster";
    }
  }

  lemma ExampleAssetLookups()
    ensures Lookup(ExampleAsset, "type") == Some(JString("Disk"))
    ensures Lookup(ExampleAsset, "totalCost") == Some(JNumber(12.5))
    ensures Lookup(ExampleAsset, "properties") == Some(JObject([("cluster", JString("prod"))]))
    ensures Lookup(ExampleAsset, "labels") == Some(JObject([]))
  {
    assert ExampleAsset[1..][1..][1..] == [("labels", JObject([]))];
  }

  lemma ExampleFieldsDecode()
    ensures DecodeString(Some(JString("Disk"))) == Decoded("Disk", None)
    ensures DecodeProperties(Some(JObject([("cluster", JString("prod"))]))) == Decoded(Some(ExampleProperties), None)
    ensures DecodeLabels(Some(JObject([]))) == Decoded([], None)
    ensures DecodeCost(Some(JNumber(12.5))) == Decoded(12.5, None)
  {
    ExamplePropertiesDecode();
  }

  lemma ExampleAssetDecodes()
    ensures DecodeAsset(ExampleAsset) == Decoded(ExampleRecord, None)
  {
    ExampleFieldsDecode();
    ExampleAssetLookups();
  }

  lemma ExampleAssetDispatched()
    ensures AccordingType(KindRoute, ExampleAsset) == WalkResult([(DiskList, ExampleRecord)], None)
  {
    ExampleAssetDecodes();
    ExampleAssetLookups();
  }

  lemma ExampleWalk()
    ensures Walk(KindRoute, ExampleEnvelope) == WalkResult([(DiskList, ExampleRecord)], None)
  {
    var inner := JObject([("a1", JObject(ExampleAsset))]);
    ExampleAssetDispatched();
    WalkSingleEntry(KindRoute, "a1", JObject(ExampleAsset));
    WalkSingleEntry(KindRoute, "data", inner);
  }

  const ExampleProperties := EmptyAssetProperties.(cluster := "prod")

  lemma ExampleTailBlank()
    ensures NonEmpty(PropertyPairs(ExampleProperties)[3..]) == []
  {
    var tail := PropertyPairs(ExampleProperties)[3..];
    assert forall i :: 0 <= i < |tail| ==> tail[i].1 == "";
    NonEmptyBlank(tail);
  }

  lemma ExampleClusterKept()
    ensures NonEmpty(PropertyPairs(ExampleProperties)[2..]) == [("property_cluster", "prod")]
  {
    var pairs := PropertyPairs(ExampleProperties);
    ExampleTailBlank();
    NonEmptyCons(pairs[2], pairs[3..]);
    assert pairs[2..] == [pairs[2]] + pairs[3..];
  }

  lemma ExampleOnlyCluster()
    ensures NonEmpty(PropertyPairs(ExampleProperties)) == [("property_cluster", "prod")]
  {
    var pairs := PropertyPairs(ExampleProperties);
    ExampleClusterKept();
    NonEmptyCons(pairs[1], pairs[2..]);
    assert pairs[1..] == [pairs[1]] + pairs[2..];
    NonEmptyCons(pairs[0], pairs[1..]);
    assert pairs == [pairs[0]] + pairs[1..];
  }

  lemma ExampleEnabledProperties()
    ensures EnabledProperties(ExampleProperties) == (["property_cluster"], ["prod"])
  {
    ExampleOnlyCluster();
    var kept := NonEmpty(PropertyPairs(ExampleProperties));
    assert EnabledProperties(ExampleProperties) == (Names(kept), Values(kept));
    assert Names(kept) == ["property_cluster"];
    assert Values(kept) == ["prod"];
  }

  lemma ExampleLabels()
    ensures DefaultLabels(ExampleRecord) == Projection(["property_cluster", "type"], ["prod", "Disk"], None)
  {
    ExampleEnabledProperties();
    assert FreeFormLabels([]) == Projection([], [], None);
    assert ExampleRecord.labels == [] && ExampleRecord.kind == "Disk";
    assert PropertiesOrEmpty(ExampleRecord.properties) == ExampleProperties;
  }

  /** The envelope {"data":{"a1":{"type":"Disk","totalCost":12.5,
      "properties":{"cluster":"prod"},"labels":{}}}} yields one disk, with
      total cost 12.5 and labels property_cluster=prod, type=Disk, and no
      error; the other lists stay empty. */
  lemma ExampleEnvelopeOneDisk()
    ensures var l := Lists([], [], [], [], []).Extend(Walk(KindRoute, ExampleEnvelope).found);
            l == Lists([ExampleRecord], [], [], [], []) && Walk(KindRoute, ExampleEnvelope).err.None? &&
            l.disk[0].totalCost == 12.5 &&
            DefaultLabels(l.disk[0]) == Projection(["property_cluster", "type"], ["prod", "Disk"], None)
  {
    ExampleWalk();
    ExampleLabels();
    ExtendOne(Lists([], [], [], [], []), DiskList, ExampleRecord);
  }
}
