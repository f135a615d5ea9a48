/** The label projector for assets: getEnabledProperties, getLabelsFromAsset
    and the per-type getDefaultLabelsFor* (all five have the same body).
    collector/assets_api.go:137-193 repeats the first two verbatim. */
module AssetLabels {
  import opened Errors
  import opened JsonValue
  import opened Strings
  import opened KubecostApi

  /** Label names and values in matching order, and the error of the Go
      triple `([]string, []string, error)`. */
  datatype Projection = Projection(names: seq<string>, values: seq<string>, err: Option<Error>)

  /** The fixed (label, property) order of getEnabledProperties. */
  function PropertyPairs(p: AssetProperties): (r: seq<(string, string)>)
    ensures |r| == 8
  {
    [("property_category", p.category), ("property_name", p.name),
     ("property_cluster", p.cluster), ("property_service", p.service),
     ("property_account", p.account), ("property_project", p.project),
     ("property_provider", p.provider), ("property_provider_id", p.providerID)]
  }

  /** The eight property labels are distinct, and none is "type". */
  lemma PropertyLabelsDistinct(p: AssetProperties)
    ensures var r := PropertyPairs(p);
            forall i, j :: 0 <= i < j < |r| ==> r[i].0 != r[j].0
    ensures forall e :: e in PropertyPairs(p) ==> e.0 != "type"
  {
  }

  /** The pairs whose value is non-empty, in order. */
  function NonEmpty(pairs: seq<(string, string)>): (r: seq<(string, string)>)
    ensures |r| <= |pairs|
    ensures forall i :: 0 <= i < |r| ==> r[i].1 != ""
  {
    if pairs == [] then []
    else (if pairs[0].1 != "" then [pairs[0]] else []) + NonEmpty(pairs[1..])
  }

  /** The filter keeps exactly the pairs with a non-empty value. */
  lemma {:induction false} NonEmptyMembers(pairs: seq<(string, string)>)
    ensures forall e :: e in NonEmpty(pairs) <==> e in pairs && e.1 != ""
  {
    if pairs != [] {
      NonEmptyMembers(pairs[1..]);
      assert pairs == [pairs[0]] + pairs[1..];
    }
  }

  lemma NonEmptyCons(e: (string, string), rest: seq<(string, string)>)
    ensures NonEmpty([e] + rest) == (if e.1 != "" then [e] else []) + NonEmpty(rest)
  {
    assert ([e] + rest)[1..] == rest;
  }

  /** No pair survives when every value is empty. */
  lemma {:induction false} NonEmptyBlank(pairs: seq<(string, string)>)
    requires forall i :: 0 <= i < |pairs| ==> pairs[i].1 == ""
    ensures NonEmpty(pairs) == []
  {
    if pairs != [] {
      NonEmptyBlank(pairs[1..]);
    }
  }

  /** Filtering distributes over concatenation: order is kept. */
  lemma {:induction false} NonEmptyConcat(a: seq<(string, string)>, b: seq<(string, string)>)
    ensures NonEmpty(a + b) == NonEmpty(a) + NonEmpty(b)
  {
    if a == [] {
      assert a + b == b;
    } else {
      assert (a + b)[0] == a[0] && (a + b)[1..] == a[1..] + b;
      NonEmptyConcat(a[1..], b);
    }
  }

  /** Some position carries label `name` with value `value`. */
  predicate Exported(names: seq<string>, values: seq<string>, name: string, value: string)
  {
    exists i :: 0 <= i < |names| && i < |values| && names[i] == name && values[i] == value
  }

  lemma FilterKeeps(pairs: seq<(string, string)>, e: (string, string))
    requires e in pairs && e.1 != ""
    ensures Exported(Names(NonEmpty(pairs)), Values(NonEmpty(pairs)), e.0, e.1)
  {
    var kept := NonEmpty(pairs);
    NonEmptyMembers(pairs);
    var i :| 0 <= i < |kept| && kept[i] == e;
    assert Names(kept)[i] == e.0 && Values(kept)[i] == e.1;
  }

  lemma FilterDrops(pairs: seq<(string, string)>, e: (string, string))
    requires e.1 == ""
    ensures !Exported(Names(NonEmpty(pairs)), Values(NonEmpty(pairs)), e.0, e.1)
  {
  }

  /** A pair survives the filter exactly when its value is non-empty, and
      the surviving names and values stay aligned. */
  lemma FilterShape(pairs: seq<(string, string)>)
    ensures forall e :: e in pairs ==>
              (e.1 != "" <==> Exported(Names(NonEmpty(pairs)), Values(NonEmpty(pairs)), e.0, e.1))
  {
    forall e | e in pairs
      ensures e.1 != "" <==> Exported(Names(NonEmpty(pairs)), Values(NonEmpty(pairs)), e.0, e.1)
    {
      if e.1 != "" {
        FilterKeeps(pairs, e);
      } else {
        FilterDrops(pairs, e);
      }
    }
  }

  function Names(pairs: seq<(string, string)>): (r: seq<string>)
    ensures |r| == |pairs| && forall i :: 0 <= i < |pairs| ==> r[i] == pairs[i].0
  {
    if pairs == [] then [] else [pairs[0].0] + Names(pairs[1..])
  }

  function Values(pairs: seq<(string, string)>): (r: seq<string>)
    ensures |r| == |pairs| && forall i :: 0 <= i < |pairs| ==> r[i] == pairs[i].1
  {
    if pairs == [] then [] else [pairs[0].1] + Values(pairs[1..])
  }

  /** getEnabledProperties: the non-empty properties, as labels, in the
      order category, name, cluster, service, account, project, provider,
      providerID. (The code is one `if len(field) > 0` append per entry of
      that table.) */
  function EnabledProperties(p: AssetProperties): (r: (seq<string>, seq<string>))
    ensures |r.0| == |r.1| <= 8
    ensures forall i :: 0 <= i < |r.1| ==> r.1[i] != ""
  {
    var kept := NonEmpty(PropertyPairs(p));
    (Names(kept), Values(kept))
  }

  /** Names and values have equal length, no value is empty, and a
      property is exported exactly when it is non-empty. */
  lemma EnabledPropertiesShape(p: AssetProperties)
    ensures |EnabledProperties(p).0| == |EnabledProperties(p).1| <= 8
    ensures forall i :: 0 <= i < |EnabledProperties(p).1| ==> EnabledProperties(p).1[i] != ""
    ensures forall e :: e in PropertyPairs(p) ==>
              (e.1 != "" <==> Exported(EnabledProperties(p).0, EnabledProperties(p).1, e.0, e.1))
  {
    FilterShape(PropertyPairs(p));
  }

  /** All free-form label values are JSON strings. */
  predicate StringValued(labels: seq<(string, Json)>)
  {
    forall i :: 0 <= i < |labels| ==> labels[i].1.JString?
  }

  /** getLabelsFromAsset as a function: every key and every string value
      with '-' replaced by '_', or an error (and no labels) as soon as a
      value is not a string. */
  function FreeFormLabels(labels: seq<(string, Json)>): (r: Projection)
    ensures r.err.Some? <==> !StringValued(labels)
    ensures r.err.Some? ==> r == Projection([], [], Some(LabelValueNotString))
    ensures r.err.None? ==>
              |r.names| == |labels| && |r.values| == |labels| &&
              forall i :: 0 <= i < |labels| ==>
                r.names[i] == ReplaceDash(labels[i].0) && r.values[i] == ReplaceDash(labels[i].1.s)
  {
    if labels == [] then Projection([], [], None)
    else if !labels[0].1.JString? then Projection([], [], Some(LabelValueNotString))
    else
      var rest := FreeFormLabels(labels[1..]);
      if rest.err.Some? then rest
      else Projection([ReplaceDash(labels[0].0)] + rest.names, [ReplaceDash(labels[0].1.s)] + rest.values, None)
  }

  /** getLabelsFromAsset: the loop over the labels map. */
  method GetLabelsFromAsset(labels: seq<(string, Json)>) returns (names: seq<string>, values: seq<string>, err: Option<Error>)
    ensures Projection(names, values, err) == FreeFormLabels(labels)
  {
    names, values := [], [];
    for i := 0 to |labels|
      invariant StringValued(labels[..i])
      invariant |names| == i && |values| == i
      invariant forall j :: 0 <= j < i ==> names[j] == ReplaceDash(labels[j].0) && values[j] == ReplaceDash(labels[j].1.s)
    {
      var (k, v) := labels[i];
      names := names + [ReplaceDash(k)];
      if !v.JString? {
        return [], [], Some(LabelValueNotString);
      }
      values := values + [ReplaceDash(v.s)];
    }
    assert labels[..|labels|] == labels;
    err := None;
  }

  /** A nil properties pointer read as the empty struct. */
  function PropertiesOrEmpty(p: Option<AssetProperties>): AssetProperties
  {
    match p
    case Some(props) => props
    case None => EmptyAssetProperties
  }

  /** getDefaultLabelsFor{Disk,Cloud,Node,LoadBalancer,ClusterManagement},
      with an absent "properties" producing no property labels (see
      DefaultLabelsAsWritten for what the code does instead). */
  function DefaultLabels(rec: AssetRecord): (r: Projection)
    ensures r.err.Some? <==> !StringValued(rec.labels)
    ensures r.err.Some? ==> r == Projection([], [], Some(LabelValueNotString))
    ensures |r.names| == |r.values|
    ensures r.err.None? ==>
              var props := EnabledProperties(PropertiesOrEmpty(rec.properties));
              var free := FreeFormLabels(rec.labels);
              r.names == props.0 + ["type"] + free.names &&
              r.values == props.1 + [rec.kind] + free.values
  {
    var free := FreeFormLabels(rec.labels);
    if free.err.Some? then Projection([], [], free.err)
    else
      var props := EnabledProperties(PropertiesOrEmpty(rec.properties));
      Projection(props.0 + ["type"] + free.names, props.1 + [rec.kind] + free.values, None)
  }

  /** Sanitised free-form labels contain no dash. */
  lemma FreeFormLabelsHaveNoDash(labels: seq<(string, Json)>)
    ensures var r := FreeFormLabels(labels);
            forall i :: 0 <= i < |r.names| ==> '-' !in r.names[i] && '-' !in r.values[i]
  {
    var r := FreeFormLabels(labels);
    forall i | 0 <= i < |r.names|
      ensures '-' !in r.names[i] && '-' !in r.values[i]
    {
      ReplaceDashNormalises(labels[i].0);
      ReplaceDashNormalises(labels[i].1.s);
    }
  }

  /** A successful projection: the non-empty property labels, then
      "type" = the record's kind, then the sanitised free-form labels. */
  lemma DefaultLabelsLayout(rec: AssetRecord)
    requires StringValued(rec.labels)
    ensures var r := DefaultLabels(rec);
            var props := EnabledProperties(PropertiesOrEmpty(rec.properties));
            var n := |props.0|;
            r.err.None? && |r.names| == n + 1 + |rec.labels| &&
            r.names[..n] == props.0 && r.values[..n] == props.1 &&
            (forall i :: 0 <= i < n ==> r.values[i] != "") &&
            r.names[n] == "type" && r.values[n] == rec.kind &&
            r.names[n + 1..] == FreeFormLabels(rec.labels).names &&
            r.values[n + 1..] == FreeFormLabels(rec.labels).values
  {
    var r := DefaultLabels(rec);
    var props := EnabledProperties(PropertiesOrEmpty(rec.properties));
    var free := FreeFormLabels(rec.labels);
    ThreeParts(props.0, "type", free.names);
    ThreeParts(props.1, rec.kind, free.values);
  }

  /** Taking apart a sequence built as `a + [x] + b`. */
  lemma ThreeParts<T>(a: seq<T>, x: T, b: seq<T>)
    ensures var s := a + [x] + b;
            |s| == |a| + 1 + |b| && s[..|a|] == a && s[|a|] == x && s[|a| + 1..] == b
  {
    var s := a + [x] + b;
    assert s[..|a|] == a;
    assert s[|a| + 1..] == b;
  }

  // ---- The code as written: a nil properties pointer is dereferenced ----

  /** The outcome of a Go call that may panic. */
  datatype Call<T> = Returns(value: T) | NilDereference

  /** getDefaultLabelsFor* exactly as written: the labels are converted
      first, then getEnabledProperties reads `properties.Category` through
      the pointer, which panics when the entry had no "properties". */
  function DefaultLabelsAsWritten(rec: AssetRecord): (r: Call<Projection>)
    ensures r.NilDereference? <==> StringValued(rec.labels) && rec.properties.None?
  {
    var free := FreeFormLabels(rec.labels);
    if free.err.Some? then Returns(Projection([], [], free.err))
    else match rec.properties
      case None => NilDereference
      case Some(p) =>
        var props := EnabledProperties(p);
        Returns(Projection(props.0 + ["type"] + free.names, props.1 + [rec.kind] + free.values, None))
  }

  /** Wherever the code as written returns, DefaultLabels returns the same;
      it differs only by not panicking. */
  lemma DefaultLabelsAgrees(rec: AssetRecord)
    ensures DefaultLabelsAsWritten(rec).Returns? ==> DefaultLabelsAsWritten(rec).value == DefaultLabels(rec)
  {
  }

  const BareDiskEntry: seq<(string, Json)> := [("type", JString("Disk")), ("labels", JObject([]))]

  lemma BareDiskDecodes()
    ensures DecodeAsset(BareDiskEntry).value == AssetRecord("Disk", None, [], 0.0)
  {
    assert Lookup(BareDiskEntry, "properties") == None;
    assert Lookup(BareDiskEntry, "type") == Some(JString("Disk"));
    assert Lookup(BareDiskEntry, "labels") == Some(JObject([]));
    assert Lookup(BareDiskEntry, "totalCost") == None;
  }

  lemma NoPropertiesNoLabels(rec: AssetRecord)
    requires rec == AssetRecord("Disk", None, [], 0.0)
    ensures DefaultLabelsAsWritten(rec) == NilDereference
    ensures DefaultLabels(rec) == Projection(["type"], ["Disk"], None)
  {
    EmptyPropertiesNoLabels();
    assert FreeFormLabels(rec.labels) == Projection([], [], None);
  }

  /** An all-empty properties struct yields no property labels. */
  lemma EmptyPropertiesNoLabels()
    ensures EnabledProperties(EmptyAssetProperties) == ([], [])
  {
    var pairs := PropertyPairs(EmptyAssetProperties);
    assert forall i :: 0 <= i < |pairs| ==> pairs[i].1 == "";
    NonEmptyBlank(pairs);
  }

  /** The entry {"type":"Disk","labels":{}} decodes to a Disk with a nil
      properties pointer, on which the code as written panics while
      DefaultLabels gives just the "type" label. */
  lemma DiskWithoutPropertiesPanics()
    ensures DefaultLabelsAsWritten(DecodeAsset(BareDiskEntry).value) == NilDereference
    ensures DefaultLabels(DecodeAsset(BareDiskEntry).value) == Projection(["type"], ["Disk"], None)
  {
    BareDiskDecodes();
    NoPropertiesNoLabels(DecodeAsset(BareDiskEntry).value);
  }
}
