/** Record shapes of the Kubecost API responses (the string fields, the
    discriminator, the free-form labels and the opaque total cost), and the
    part of `json.Unmarshal` that fills an asset record from an untyped JSON
    object. */
module KubecostApi {
  import opened Errors
  import opened JsonValue

  /** The eight string properties an asset may carry. */
  datatype AssetProperties = AssetProperties(
    category: string, provider: string, account: string, project: string,
    service: string, cluster: string, name: string, providerID: string)

  const EmptyAssetProperties := AssetProperties("", "", "", "", "", "", "", "")

  /** The fields of CloudAssetDisk, CloudAssetCloud, CloudAssetNode,
      CloudAssetLoadBalancer and CloudAssetClusterManagement that the exporter
      reads. `properties` is a pointer in Go: None stands for nil. `labels` is
      the `map[string]interface{}` in iteration order; `totalCost` is passed
      through untouched. */
  datatype AssetRecord = AssetRecord(
    kind: string,
    properties: Option<AssetProperties>,
    labels: seq<(string, Json)>,
    totalCost: real)

  /** An `interface{}` holding one of the five asset record types, or
      anything else. */
  datatype Asset =
    | AsDisk(disk: AssetRecord)
    | AsCloud(cloud: AssetRecord)
    | AsNode(node: AssetRecord)
    | AsLoadBalancer(lb: AssetRecord)
    | AsClusterManagement(cm: AssetRecord)
    | OtherValue

  /** The label and property part of an Allocation (AllocationProperties). */
  datatype AllocationProperties = AllocationProperties(
    cluster: string, node: string, container: string, controller: string,
    controllerKind: string, namespace: string, pod: string, providerID: string,
    labels: seq<(string, string)>)

  const EmptyAllocationProperties := AllocationProperties("", "", "", "", "", "", "", "", [])

  /** An Allocation; `properties` is a pointer in Go: None stands for nil. */
  datatype Allocation = Allocation(
    name: string,
    properties: Option<AllocationProperties>,
    totalCost: real)

  /** CostDataResponse: `data` is a list whose first element is the
      name -> Allocation map, in the order the scrape loop visits it. */
  datatype CostDataResponse = CostDataResponse(
    code: int, status: string, data: seq<seq<(string, Allocation)>>)

  /** A record produced by `json.Unmarshal` together with the first error it
      reported; Unmarshal keeps going after a type mismatch, leaving the
      offending field at its zero value. */
  datatype Decoded<T> = Decoded(value: T, err: Option<Error>)

  /** Unmarshal into a Go `string` field: absent or null leaves "". */
  function DecodeString(v: Option<Json>): (r: Decoded<string>)
    ensures r.err.None? <==> (v.None? || v.value.JNull? || v.value.JString?)
    ensures v.Some? && v.value.JString? ==> r.value == v.value.s
    ensures !(v.Some? && v.value.JString?) ==> r.value == ""
  {
    match v
    case None => Decoded("", None)
    case Some(JNull) => Decoded("", None)
    case Some(JString(s)) => Decoded(s, None)
    case Some(_) => Decoded("", Some(DecodeMismatch))
  }

  /** The JSON tags of AssetProperties, in sorted order. */
  const PropertyTags := ["account", "category", "cluster", "name", "project", "provider", "providerID", "service"]

  /** The errors of decoding the entries under `keys` as strings, in order. */
  function TagErrors(obj: seq<(string, Json)>, keys: seq<string>): (r: seq<Option<Error>>)
    ensures |r| == |keys|
  {
    seq(|keys|, i requires 0 <= i < |keys| => DecodeString(Lookup(obj, keys[i])).err)
  }

  /** Every entry under one of `keys` is absent, null or a string. */
  predicate AllStringTyped(obj: seq<(string, Json)>, keys: seq<string>)
  {
    forall i :: 0 <= i < |keys| ==> DecodeString(Lookup(obj, keys[i])).err.None?
  }

  function FirstError(errs: seq<Option<Error>>): (r: Option<Error>)
    ensures r.None? <==> forall i :: 0 <= i < |errs| ==> errs[i].None?
  {
    if errs == [] then None else if errs[0].Some? then errs[0] else FirstError(errs[1..])
  }

  /** Four decoded fields report no error exactly when none of them does. */
  lemma FirstErrorOfFour(a: Option<Error>, b: Option<Error>, c: Option<Error>, d: Option<Error>)
    ensures FirstError([a, b, c, d]).None? <==> a.None? && b.None? && c.None? && d.None?
  {
    var errs := [a, b, c, d];
    assert errs[0] == a && errs[1] == b && errs[2] == c && errs[3] == d;
  }

  /** Decoding the entries under `keys` reports no error exactly when all
      of them are absent, null or strings. */
  lemma TagErrorsNone(obj: seq<(string, Json)>, keys: seq<string>)
    ensures FirstError(TagErrors(obj, keys)).None? <==> AllStringTyped(obj, keys)
  {
    var errs := TagErrors(obj, keys);
    assert forall i :: 0 <= i < |keys| ==> errs[i] == DecodeString(Lookup(obj, keys[i])).err;
  }

  /** Unmarshal of an object into AssetProperties: each field is decoded
      from the entry under its JSON tag, and the first mismatch in sorted
      tag order is the error. */
  function DecodePropertiesObject(obj: seq<(string, Json)>): (r: Decoded<AssetProperties>)
    ensures r.value.category == DecodeString(Lookup(obj, "category")).value
    ensures r.value.provider == DecodeString(Lookup(obj, "provider")).value
    ensures r.value.account == DecodeString(Lookup(obj, "account")).value
    ensures r.value.project == DecodeString(Lookup(obj, "project")).value
    ensures r.value.service == DecodeString(Lookup(obj, "service")).value
    ensures r.value.cluster == DecodeString(Lookup(obj, "cluster")).value
    ensures r.value.name == DecodeString(Lookup(obj, "name")).value
    ensures r.value.providerID == DecodeString(Lookup(obj, "providerID")).value
    ensures r.err.None? <==> AllStringTyped(obj, PropertyTags)
  {
    var category := DecodeString(Lookup(obj, "category"));
    var provider := DecodeString(Lookup(obj, "provider"));
    var account := DecodeString(Lookup(obj, "account"));
    var project := DecodeString(Lookup(obj, "project"));
    var service := DecodeString(Lookup(obj, "service"));
    var cluster := DecodeString(Lookup(obj, "cluster"));
    var name := DecodeString(Lookup(obj, "name"));
    var providerID := DecodeString(Lookup(obj, "providerID"));
    TagErrorsNone(obj, PropertyTags);
    Decoded(
      AssetProperties(category.value, provider.value, account.value, project.value,
                      service.value, cluster.value, name.value, providerID.value),
      FirstError(TagErrors(obj, PropertyTags)))
  }

  /** Unmarshal into the `*AssetProperties` field: absent or null leaves nil;
      any other value allocates the struct, and a non-object reports an error
      and leaves it zero. */
  function DecodeProperties(v: Option<Json>): (r: Decoded<Option<AssetProperties>>)
    ensures r.value.Some? <==> (v.Some? && !v.value.JNull?)
    ensures v.Some? && !v.value.JNull? && !v.value.JObject? ==>
              r.value == Some(EmptyAssetProperties) && r.err == Some(DecodeMismatch)
    ensures v.Some? && v.value.JObject? ==>
              r == Decoded(Some(DecodePropertiesObject(v.value.fields).value), DecodePropertiesObject(v.value.fields).err)
  {
    match v
    case None => Decoded(None, None)
    case Some(JNull) => Decoded(None, None)
    case Some(JObject(obj)) =>
      var p := DecodePropertiesObject(obj);
      Decoded(Some(p.value), p.err)
    case Some(_) => Decoded(Some(EmptyAssetProperties), Some(DecodeMismatch))
  }

  /** Unmarshal into the `map[string]interface{}` labels field. */
  function DecodeLabels(v: Option<Json>): (r: Decoded<seq<(string, Json)>>)
    ensures v.Some? && v.value.JObject? ==> r == Decoded(v.value.fields, None)
    ensures !(v.Some? && v.value.JObject?) ==> r.value == []
    ensures r.err.Some? <==> (v.Some? && !v.value.JNull? && !v.value.JObject?)
  {
    match v
    case None => Decoded([], None)
    case Some(JNull) => Decoded([], None)
    case Some(JObject(obj)) => Decoded(obj, None)
    case Some(_) => Decoded([], Some(DecodeMismatch))
  }

  /** Unmarshal into the float64 totalCost field. */
  function DecodeCost(v: Option<Json>): (r: Decoded<real>)
    ensures v.Some? && v.value.JNumber? ==> r == Decoded(v.value.n, None)
    ensures !(v.Some? && v.value.JNumber?) ==> r.value == 0.0
    ensures r.err.Some? <==> (v.Some? && !v.value.JNull? && !v.value.JNumber?)
  {
    match v
    case None => Decoded(0.0, None)
    case Some(JNull) => Decoded(0.0, None)
    case Some(JNumber(n)) => Decoded(n, None)
    case Some(_) => Decoded(0.0, Some(DecodeMismatch))
  }

  /** The `json.Marshal` / `json.Unmarshal` round trip of Add*FromMap: an asset
      object becomes a record. The marshalled keys come out sorted, so the
      first error is looked for in the order labels, properties, totalCost,
      type. */
  function DecodeAsset(obj: seq<(string, Json)>): (r: Decoded<AssetRecord>)
    ensures Lookup(obj, "type") == Some(JString(r.value.kind)) || r.value.kind == ""
    ensures forall s :: Lookup(obj, "type") == Some(JString(s)) ==> r.value.kind == s
    ensures Lookup(obj, "labels").Some? && Lookup(obj, "labels").value.JObject? ==>
              r.value.labels == Lookup(obj, "labels").value.fields
    ensures Lookup(obj, "totalCost").Some? && Lookup(obj, "totalCost").value.JNumber? ==>
              r.value.totalCost == Lookup(obj, "totalCost").value.n
    ensures r.value.properties.None? <==>
              (Lookup(obj, "properties").None? || Lookup(obj, "properties") == Some(JNull))
    ensures forall p :: Lookup(obj, "properties") == Some(JObject(p)) ==>
              r.value.properties == Some(DecodePropertiesObject(p).value)
    ensures r.err.None? <==>
              DecodeLabels(Lookup(obj, "labels")).err.None? && DecodeProperties(Lookup(obj, "properties")).err.None? &&
              DecodeCost(Lookup(obj, "totalCost")).err.None? && DecodeString(Lookup(obj, "type")).err.None?
  {
    var kind := DecodeString(Lookup(obj, "type"));
    var properties := DecodeProperties(Lookup(obj, "properties"));
    var labels := DecodeLabels(Lookup(obj, "labels"));
    var cost := DecodeCost(Lookup(obj, "totalCost"));
    FirstErrorOfFour(labels.err, properties.err, cost.err, kind.err);
    Decoded(
      AssetRecord(kind.value, properties.value, labels.value, cost.value),
      FirstError([labels.err, properties.err, cost.err, kind.err]))
  }

  /** A field of the wrong JSON type is reported, yet the record is still
      produced, with that field at its zero value. */
  lemma MismatchStillYieldsRecord()
    ensures var d := DecodeAsset([("type", JString("Disk")), ("totalCost", JString("12.5"))]);
            d.err == Some(DecodeMismatch) && d.value == AssetRecord("Disk", None, [], 0.0)
  {
    var obj := [("type", JString("Disk")), ("totalCost", JString("12.5"))];
    assert Lookup(obj, "labels") == None;
    assert Lookup(obj, "properties") == None;
    assert Lookup(obj, "totalCost") == Some(JString("12.5"));
    assert Lookup(obj, "type") == Some(JString("Disk"));
  }
}
