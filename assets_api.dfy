/** collector/assets_api.go: the two-list (Disk, Cloud) revision of
    CloudAssets, whose dispatcher knows only "Disk", and the ScrapeAssets
    scraper that turns the disks into metrics. */
module AssetsApi {
  import opened Errors
  import opened JsonValue
  import opened KubecostApi
  import opened Envelope
  import opened AssetLabels
  import opened Metrics

  /** scrapeAssetsSubsystemName, the scraper's Name(). */
  const Name := "scrape_assets"

  /** promDescSubsystem, the metric subsystem. */
  const Subsystem := "cost"

  /** addAccordingType's switch in this revision: only "Disk". */
  function DiskRoute(kind: string): (r: Option<ListKind>)
    ensures r.Some? <==> kind == "Disk"
    ensures r.Some? ==> r.value == DiskList
  {
    if kind == "Disk" then Some(DiskList) else None
  }

  /** The disks a walk of `v` finds, in order. */
  function DisksOf(v: Json): seq<AssetRecord>
  {
    Records(Walk(DiskRoute, v).found, DiskList)
  }

  class CloudAssets {
    var Cloud: seq<AssetRecord>
    var Disk: seq<AssetRecord>

    /** NewCloudAssets: both lists empty. */
    constructor ()
      ensures Cloud == [] && Disk == []
    {
      Cloud, Disk := [], [];
    }

    method AddDisk(disk: AssetRecord)
      modifies this
      ensures Disk == old(Disk) + [disk] && Cloud == old(Cloud)
    {
      Disk := Disk + [disk];
    }

    method AddCloud(cloud: AssetRecord)
      modifies this
      ensures Cloud == old(Cloud) + [cloud] && Disk == old(Disk)
    {
      Cloud := Cloud + [cloud];
    }

    /** AddDiskFromMap: the decoded record is appended even when decoding
        reported an error, and that error is returned. */
    method AddDiskFromMap(asset: seq<(string, Json)>) returns (err: Option<Error>)
      modifies this
      ensures Disk == old(Disk) + [DecodeAsset(asset).value] && Cloud == old(Cloud)
      ensures err == DecodeAsset(asset).err
    {
      var decoded := DecodeAsset(asset);
      AddDisk(decoded.value);
      err := decoded.err;
    }

    /** AddCloudFromMap: present in this revision but never dispatched to. */
    method AddCloudFromMap(asset: seq<(string, Json)>) returns (err: Option<Error>)
      modifies this
      ensures Cloud == old(Cloud) + [DecodeAsset(asset).value] && Disk == old(Disk)
      ensures err == DecodeAsset(asset).err
    {
      var decoded := DecodeAsset(asset);
      AddCloud(decoded.value);
      err := decoded.err;
    }

    /** addAccordingType: a missing "type" is an error, "Disk" appends a
        disk (dropping the decode error), anything else does nothing. */
    method AddAccordingType(asset: seq<(string, Json)>) returns (err: Option<Error>)
      modifies this
      ensures Disk == old(Disk) + Records(AccordingType(DiskRoute, asset).found, DiskList)
      ensures Cloud == old(Cloud)
      ensures err == AccordingType(DiskRoute, asset).err
    {
      var valType := Lookup(asset, "type");
      if valType.None? {
        assert Disk + [] == Disk;
        return Some(MissingTypeField);
      }
      if valType.value == JString("Disk") {
        var ignored := AddDiskFromMap(asset);
        var f: seq<Found> := [(DiskList, DecodeAsset(asset).value)];
        assert f[1..] == [];
      } else {
        assert Disk + [] == Disk;
      }
      err := None;
    }

    /** MapAssets: append the disks Walk finds and return its error; the
        Cloud list is never touched. */
    method MapAssets(value: Json) returns (err: Option<Error>)
      modifies this
      ensures Disk == old(Disk) + Records(Walk(DiskRoute, value).found, DiskList)
      ensures Cloud == old(Cloud)
      ensures err == Walk(DiskRoute, value).err
      decreases value, 2
    {
      match value {
        case JArray(_) => err := MapItems(value);
        case JObject(_) => err := MapFields(value);
        case _ =>
          assert old(Disk) + [] == old(Disk);
          err := Some(UnknownMapType);
      }
    }

    /** The array case of MapAssets: every element is walked, and the
        elements' errors are dropped. */
    method MapItems(value: Json) returns (err: Option<Error>)
      requires value.JArray?
      modifies this
      ensures Disk == old(Disk) + Records(Walk(DiskRoute, value).found, DiskList)
      ensures Cloud == old(Cloud)
      ensures err == Walk(DiskRoute, value).err
      decreases value, 1
    {
      var items := value.items;
      ghost var added: seq<Found> := [];
      for i := 0 to |items|
        invariant Disk == old(Disk) + Records(added, DiskList) && Cloud == old(Cloud)
        invariant Walk(DiskRoute, value).found == added + WalkItems(DiskRoute, value, i)
      {
        var ignored := MapAssets(items[i]);
        ghost var step := Walk(DiskRoute, items[i]).found;
        AppendRecords(old(Disk), added, step, DiskList);
        ItemsStep(DiskRoute, value, i, added, Walk(DiskRoute, value).found);
        added := added + step;
      }
      assert added + [] == added;
      err := None;
    }

    /** One entry of the object loop of MapAssets. */
    method MapEntry(value: Json, i: nat) returns (err: Option<Error>)
      requires value.JObject? && i < |value.fields|
      modifies this
      ensures Disk == old(Disk) + Records(WalkEntry(DiskRoute, value, i).found, DiskList)
      ensures Cloud == old(Cloud)
      ensures err == WalkEntry(DiskRoute, value, i).err
      ensures err.Some? ==> WalkEntry(DiskRoute, value, i).found == []
      decreases value, 0
    {
      assert value.fields[i] in value.fields;
      var (k, v) := value.fields[i];
      if k == "data" {
        var ignored := MapAssets(v);
        err := None;
      } else if v.JObject? {
        err := AddAccordingType(v.fields);
      } else {
        assert old(Disk) + [] == old(Disk);
        err := None;
      }
    }

    /** The object case of MapAssets: "data" is walked with its error
        dropped, an object-valued entry is dispatched and its error ends the
        loop, anything else is skipped. */
    method MapFields(value: Json) returns (err: Option<Error>)
      requires value.JObject?
      modifies this
      ensures Disk == old(Disk) + Records(Walk(DiskRoute, value).found, DiskList)
      ensures Cloud == old(Cloud)
      ensures err == Walk(DiskRoute, value).err
      decreases value, 1
    {
      var fields := value.fields;
      ghost var total := Walk(DiskRoute, value);
      ghost var added: seq<Found> := [];
      for i := 0 to |fields|
        invariant Disk == old(Disk) + Records(added, DiskList) && Cloud == old(Cloud)
        invariant total == Then(WalkResult(added, None), WalkFields(DiskRoute, value, i))
      {
        var e := MapEntry(value, i);
        if e.Some? {
          FieldsStop(DiskRoute, value, i, added, total);
          return e;
        }
        AppendRecords(old(Disk), added, WalkEntry(DiskRoute, value, i).found, DiskList);
        FieldsStep(DiskRoute, value, i, added, total);
        added := added + WalkEntry(DiskRoute, value, i).found;
      }
      assert added + [] == added;
      err := None;
    }
  }

  /** GetDefaultLabelsFromAssets in this revision: only a disk is
      projected; any other value gives no labels and no error. */
  function GetDefaultLabelsFromAssets(asset: Asset): (r: Projection)
    ensures !asset.AsDisk? ==> r == Projection([], [], None)
    ensures asset.AsDisk? ==> r == DefaultLabels(asset.disk)
  {
    match asset
    case AsDisk(d) => DefaultLabels(d)
    case _ => Projection([], [], None)
  }

  /** The gauge sent for one disk whose labels projected successfully. */
  function DiskMetric(d: AssetRecord): (m: Metric)
    ensures m.fqName == "assets_cost_total"
    ensures m.value == d.totalCost
    ensures |m.labelNames| == |m.labelValues|
  {
    var labels := DefaultLabels(d);
    Metric(FQName(Namespace, Subsystem, "total"), labels.names, labels.values, d.totalCost)
  }

  /** The disk loop of Scrape: one metric per disk, in order, until the
      first disk whose labels fail; that failure is the error. */
  function EmitDisks(disks: seq<AssetRecord>): (r: (seq<Metric>, Option<Error>))
    ensures |r.0| <= |disks|
  {
    if disks == [] then ([], None)
    else
      var labels := DefaultLabels(disks[0]);
      if labels.err.Some? then ([], labels.err)
      else
        var rest := EmitDisks(disks[1..]);
        ([DiskMetric(disks[0])] + rest.0, rest.1)
  }

  /** The i-th emitted metric is the i-th disk's, and that disk's labels
      projected. */
  lemma {:induction false} EmitDisksInOrder(disks: seq<AssetRecord>)
    ensures var r := EmitDisks(disks).0;
            forall i :: 0 <= i < |r| ==> r[i] == DiskMetric(disks[i]) && DefaultLabels(disks[i]).err.None?
  {
    if disks != [] && DefaultLabels(disks[0]).err.None? {
      var rest := disks[1..];
      EmitDisksInOrder(rest);
      var tail := EmitDisks(rest).0;
      var r := EmitDisks(disks).0;
      assert r == [DiskMetric(disks[0])] + tail;
      forall i | 0 <= i < |r|
        ensures r[i] == DiskMetric(disks[i]) && DefaultLabels(disks[i]).err.None?
      {
        if i > 0 {
          assert r[i] == tail[i - 1];
          assert disks[i] == rest[i - 1];
        }
      }
    }
  }

  /** No error exactly when every disk projects, and then every disk is
      emitted. */
  lemma {:induction false} EmitDisksComplete(disks: seq<AssetRecord>)
    ensures var r := EmitDisks(disks);
            (r.1.None? <==> forall i :: 0 <= i < |disks| ==> DefaultLabels(disks[i]).err.None?) &&
            (r.1.None? ==> |r.0| == |disks|)
  {
    if disks != [] && DefaultLabels(disks[0]).err.None? {
      var rest := disks[1..];
      EmitDisksComplete(rest);
      assert forall i :: 1 <= i < |disks| ==> disks[i] == rest[i - 1];
    }
  }

  /** On an error, emission stopped at the first disk whose labels failed,
      and that disk's error is the one returned. */
  lemma {:induction false} EmitDisksStopsAtFailure(disks: seq<AssetRecord>)
    ensures var r := EmitDisks(disks);
            r.1.Some? ==> |r.0| < |disks| && r.1 == DefaultLabels(disks[|r.0|]).err
  {
    if disks != [] && DefaultLabels(disks[0]).err.None? {
      var rest := disks[1..];
      EmitDisksStopsAtFailure(rest);
      assert forall i :: 1 <= i < |disks| ==> disks[i] == rest[i - 1];
    }
  }

  /** One step of EmitDisks. */
  lemma EmitDisksUnfold(disks: seq<AssetRecord>)
    requires disks != []
    ensures DefaultLabels(disks[0]).err.Some? ==> EmitDisks(disks) == ([], DefaultLabels(disks[0]).err)
    ensures DefaultLabels(disks[0]).err.None? ==>
              EmitDisks(disks) == ([DiskMetric(disks[0])] + EmitDisks(disks[1..]).0, EmitDisks(disks[1..]).1)
  {
  }

  /** ScrapeAssets.Scrape, with `listAssets` standing for the API client's
      ListAssets: the query is the caller's parameters followed by
      "accumulate=true"; a fetch error is returned with nothing emitted;
      otherwise the disks found are emitted in order until a label failure,
      whose error is returned, and else the walk's error is returned. */
  method Scrape(params: seq<QueryParam>, listAssets: seq<QueryParam> -> Result<Json>)
    returns (emitted: seq<Metric>, err: Option<Error>)
    ensures listAssets(params + [Accumulate]).Failure? ==>
              emitted == [] && err == Some(listAssets(params + [Accumulate]).error)
    ensures listAssets(params + [Accumulate]).Success? ==>
              var assets := listAssets(params + [Accumulate]).value;
              var emission := EmitDisks(DisksOf(assets));
              emitted == emission.0 &&
              err == (if emission.1.Some? then emission.1 else Walk(DiskRoute, assets).err)
  {
    var assets := listAssets(params + [Accumulate]);
    if assets.Failure? {
      return [], Some(assets.error);
    }
    var mapper := new CloudAssets();
    var mapErr := mapper.MapAssets(assets.value);
    assert mapper.Disk == DisksOf(assets.value);
    var sendErr;
    emitted, sendErr := SendDisks(mapper.Disk);
    if sendErr.Some? {
      return emitted, sendErr;
    }
    err := mapErr;
  }

  /** The disk loop of Scrape: it sends what EmitDisks specifies and
      returns the first label failure. */
  method SendDisks(disks: seq<AssetRecord>) returns (emitted: seq<Metric>, err: Option<Error>)
    ensures (emitted, err) == EmitDisks(disks)
  {
    emitted := [];
    assert disks[0..] == disks && emitted + EmitDisks(disks).0 == EmitDisks(disks).0;
    for i := 0 to |disks|
      invariant EmitDisks(disks) == (emitted + EmitDisks(disks[i..]).0, EmitDisks(disks[i..]).1)
    {
      var rest := disks[i..];
      assert rest[0] == disks[i] && rest[1..] == disks[i + 1..];
      EmitDisksUnfold(rest);
      var labels := GetDefaultLabelsFromAssets(AsDisk(disks[i]));
      if labels.err.Some? {
        assert emitted + [] == emitted;
        return emitted, labels.err;
      }
      var metric := Metric(FQName(Namespace, Subsystem, "total"), labels.names, labels.values, disks[i].totalCost);
      assert metric == DiskMetric(disks[i]);
      assert emitted + ([metric] + EmitDisks(disks[i + 1..]).0) == (emitted + [metric]) + EmitDisks(disks[i + 1..]).0;
      emitted := emitted + [metric];
    }
    assert disks[|disks|..] == [];
    assert emitted + [] == emitted;
    err := None;
  }

  /** Everything this revision collects is a disk: every found record has
      "type" "Disk", so the Disk list holds all of them. */
  lemma DisksAreAllFound(v: Json)
    ensures |DisksOf(v)| == |Walk(DiskRoute, v).found|
    ensures forall i :: 0 <= i < |DisksOf(v)| ==>
              DisksOf(v)[i] == Walk(DiskRoute, v).found[i].1 && DisksOf(v)[i].kind == "Disk"
  {
    var found := Walk(DiskRoute, v).found;
    WalkRoutes(DiskRoute, v);
    assert forall i :: 0 <= i < |found| ==> found[i].0 == DiskList;
    RecordsAll(found, DiskList);
    RecordsRouted(DiskRoute, found, DiskList);
  }

  /** Dispatch in this revision: a missing "type" is an error; "Disk"
      appends one disk; every other value, including a non-string, adds
      nothing and no error. */
  lemma DispatchCases(asset: seq<(string, Json)>)
    ensures Lookup(asset, "type").None? ==> AccordingType(DiskRoute, asset) == WalkResult([], Some(MissingTypeField))
    ensures Lookup(asset, "type") == Some(JString("Disk")) ==>
              AccordingType(DiskRoute, asset) == WalkResult([(DiskList, DecodeAsset(asset).value)], None)
    ensures Lookup(asset, "type").Some? && Lookup(asset, "type") != Some(JString("Disk")) ==>
              AccordingType(DiskRoute, asset) == WalkResult([], None)
  {
  }

  /** This revision has no disks to send exactly when its walk finds no
      record at all; the disk loop then sends nothing and fails nowhere. */
  lemma NoDisksNoMetrics(v: Json)
    ensures DisksOf(v) == [] <==> Walk(DiskRoute, v).found == []
    ensures DisksOf(v) == [] ==> EmitDisks(DisksOf(v)) == ([], None)
  {
    DisksAreAllFound(v);
  }
}
