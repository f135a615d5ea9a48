/** What `CloudAssets.MapAssets` does to an untyped API response, as a
    function: the records it appends (in order, each tagged with the list it
    goes to) and the error it returns. Both revisions of the walker
    (collector/cloudassets.go and collector/assets_api.go) have the same
    traversal and differ only in which "type" values their dispatcher
    recognises, so the walk is parametrised by that routing table. */
module Envelope {
  import opened Errors
  import opened JsonValue
  import opened KubecostApi

  /** The receiver's five lists: disk, cloud, node, lb, cm. */
  datatype ListKind = DiskList | CloudList | NodeList | LbList | CmList

  /** The dispatcher's switch: which list a "type" string is appended to. */
  type Route = string -> Option<ListKind>

  type Found = (ListKind, AssetRecord)

  datatype WalkResult = WalkResult(found: seq<Found>, err: Option<Error>)

  /** addAccordingType: look the discriminator up, fail when it is missing,
      append the decoded record when the route knows it (a non-string
      "type" matches no case), and otherwise do nothing. Errors of the
      decode are dropped. */
  function AccordingType(route: Route, asset: seq<(string, Json)>): (r: WalkResult)
    ensures r.err.Some? <==> Lookup(asset, "type").None?
    ensures r.err.Some? ==> r.found == [] && r.err == Some(MissingTypeField)
    ensures |r.found| <= 1
    ensures forall s :: Lookup(asset, "type") == Some(JString(s)) && route(s).Some? ==>
              r.found == [(route(s).value, DecodeAsset(asset).value)]
    ensures r.found == [] <==>
              (Lookup(asset, "type").None? || !Lookup(asset, "type").value.JString? ||
               route(Lookup(asset, "type").value.s).None?)
  {
    match Lookup(asset, "type")
    case None => WalkResult([], Some(MissingTypeField))
    case Some(t) =>
      if t.JString? && route(t.s).Some? then WalkResult([(route(t.s).value, DecodeAsset(asset).value)], None)
      else WalkResult([], None)
  }

  /** MapAssets. An array walks every element and drops their errors; an
      object walks its entries (see WalkFields); anything else is the
      "unknown map type" error. */
  function Walk(route: Route, v: Json): (r: WalkResult)
    ensures v.JArray? ==> r.err.None?
    ensures !v.JArray? && !v.JObject? ==> r == WalkResult([], Some(UnknownMapType))
    decreases v, 1
  {
    match v
    case JArray(_) => WalkResult(WalkItems(route, v, 0), None)
    case JObject(_) => WalkFields(route, v, 0)
    case _ => WalkResult([], Some(UnknownMapType))
  }

  /** A value that is neither an array nor an object is the "unknown map
      type" error and yields no record. */
  lemma ScalarIsUnknown(route: Route, v: Json)
    requires !v.JArray? && !v.JObject?
    ensures Walk(route, v) == WalkResult([], Some(UnknownMapType))
  {
  }

  /** The records found in the elements `i..` of an array. */
  function WalkItems(route: Route, v: Json, i: nat): (r: seq<Found>)
    requires v.JArray?
    ensures i >= |v.items| ==> r == []
    decreases v, 0, |v.items| - i
  {
    if i >= |v.items| then []
    else Walk(route, v.items[i]).found + WalkItems(route, v, i + 1)
  }

  /** The entries `i..` of an object, one after the other, stopping at the
      first entry that fails. */
  function WalkFields(route: Route, v: Json, i: nat): (r: WalkResult)
    requires v.JObject?
    ensures i >= |v.fields| ==> r == WalkResult([], None)
    ensures i < |v.fields| && WalkEntry(route, v, i).err.Some? ==> r == WalkEntry(route, v, i)
    decreases v, 0, |v.fields| - i
  {
    if i >= |v.fields| then WalkResult([], None)
    else Then(WalkEntry(route, v, i), WalkFields(route, v, i + 1))
  }

  /** Entry `i` of an object: a "data" entry is walked with its error
      dropped, an object-valued entry goes to the dispatcher (whose error
      ends the walk), any other entry is skipped. */
  function WalkEntry(route: Route, v: Json, i: nat): (r: WalkResult)
    requires v.JObject? && i < |v.fields|
    ensures v.fields[i].0 == "data" ==> r.err.None?
    decreases v, 0, 0
  {
    assert v.fields[i] in v.fields;
    var (k, x) := v.fields[i];
    if k == "data" then WalkResult(Walk(route, x).found, None)
    else if x.JObject? then AccordingType(route, x.fields)
    else WalkResult([], None)
  }

  /** Sequential composition of two walks: the second runs only if the
      first did not fail. */
  function Then(a: WalkResult, b: WalkResult): (r: WalkResult)
    ensures a.err.Some? ==> r == a
  {
    if a.err.Some? then a else WalkResult(a.found + b.found, b.err)
  }

  lemma ThenAssociative(a: WalkResult, b: WalkResult, c: WalkResult)
    ensures Then(Then(a, b), c) == Then(a, Then(b, c))
  {
  }

  /** The records of `found` that go to list `k`, in order. */
  function Records(found: seq<Found>, k: ListKind): (r: seq<AssetRecord>)
    ensures |r| <= |found|
  {
    if found == [] then []
    else (if found[0].0 == k then [found[0].1] else []) + Records(found[1..], k)
  }

  lemma {:induction false} RecordsConcat(a: seq<Found>, b: seq<Found>, k: ListKind)
    ensures Records(a + b, k) == Records(a, k) + Records(b, k)
  {
    if a == [] {
      assert a + b == b;
    } else {
      var head := if a[0].0 == k then [a[0].1] else [];
      var ab := a + b;
      assert ab[0] == a[0] && ab[1..] == a[1..] + b;
      RecordsConcat(a[1..], b, k);
      calc {
        Records(ab, k);
        head + Records(a[1..] + b, k);
        head + (Records(a[1..], k) + Records(b, k));
        (head + Records(a[1..], k)) + Records(b, k);
        Records(a, k) + Records(b, k);
      }
    }
  }

  /** Appending the records of `a + b` to a list is appending those of `a`, then those of `b`. */
  lemma AppendRecords(x: seq<AssetRecord>, a: seq<Found>, b: seq<Found>, k: ListKind)
    ensures x + Records(a + b, k) == (x + Records(a, k)) + Records(b, k)
  {
    RecordsConcat(a, b, k);
    assert x + (Records(a, k) + Records(b, k)) == (x + Records(a, k)) + Records(b, k);
  }

  /** A list that no found record is routed to stays as it was. */
  lemma {:induction false} RecordsNone(found: seq<Found>, k: ListKind)
    requires forall i :: 0 <= i < |found| ==> found[i].0 != k
    ensures Records(found, k) == []
  {
    if found != [] {
      RecordsNone(found[1..], k);
    }
  }

  /** When every record is routed to `k`, list `k` receives all of them. */
  lemma {:induction false} RecordsAll(found: seq<Found>, k: ListKind)
    requires forall i :: 0 <= i < |found| ==> found[i].0 == k
    ensures |Records(found, k)| == |found|
    ensures forall i :: 0 <= i < |found| ==> Records(found, k)[i] == found[i].1
  {
    if found != [] {
      RecordsAll(found[1..], k);
    }
  }

  // ---- The array case ----

  /** One step of the array loop: element `i`'s records follow those
      already gathered. */
  lemma ItemsStep(route: Route, v: Json, i: nat, added: seq<Found>, total: seq<Found>)
    requires v.JArray? && i < |v.items|
    requires total == added + WalkItems(route, v, i)
    ensures total == (added + Walk(route, v.items[i]).found) + WalkItems(route, v, i + 1)
  {
    var step := Walk(route, v.items[i]).found;
    var rest := WalkItems(route, v, i + 1);
    assert WalkItems(route, v, i) == step + rest;
    assert added + (step + rest) == (added + step) + rest;
  }

  /** One step of the object loop past an entry that did not fail. */
  lemma FieldsStep(route: Route, v: Json, i: nat, added: seq<Found>, total: WalkResult)
    requires v.JObject? && i < |v.fields|
    requires total == Then(WalkResult(added, None), WalkFields(route, v, i))
    requires WalkEntry(route, v, i).err.None?
    ensures total == Then(WalkResult(added + WalkEntry(route, v, i).found, None), WalkFields(route, v, i + 1))
  {
    ThenAssociative(WalkResult(added, None), WalkEntry(route, v, i), WalkFields(route, v, i + 1));
  }

  /** The object loop stops at an entry that fails, which found nothing. */
  lemma FieldsStop(route: Route, v: Json, i: nat, added: seq<Found>, total: WalkResult)
    requires v.JObject? && i < |v.fields|
    requires total == Then(WalkResult(added, None), WalkFields(route, v, i))
    requires WalkEntry(route, v, i).err.Some? && WalkEntry(route, v, i).found == []
    ensures total == WalkResult(added, WalkEntry(route, v, i).err)
  {
    assert added + [] == added;
  }

  lemma {:induction false} WalkItemsSuffix(route: Route, items: seq<Json>, i: nat)
    requires i <= |items|
    ensures WalkItems(route, JArray(items), i) == WalkItems(route, JArray(items[i..]), 0)
    decreases |items| - i
  {
    if i < |items| {
      WalkItemsSuffix(route, items, i + 1);
      WalkItemsSuffix(route, items[i..], 1);
      assert items[i..][1..] == items[i + 1..];
    }
  }

  lemma {:induction false} WalkItemsConcat(route: Route, a: seq<Json>, b: seq<Json>)
    ensures WalkItems(route, JArray(a + b), 0) == WalkItems(route, JArray(a), 0) + WalkItems(route, JArray(b), 0)
  {
    if a == [] {
      assert a + b == b;
    } else {
      WalkItemsSuffix(route, a + b, 1);
      WalkItemsSuffix(route, a, 1);
      assert (a + b)[0] == a[0];
      assert (a + b)[1..] == a[1..] + b;
      WalkItemsConcat(route, a[1..], b);
    }
  }

  /** An array walk never fails, and walking a concatenation appends the
      two walks' records. */
  lemma WalkArrayConcat(route: Route, a: seq<Json>, b: seq<Json>)
    ensures Walk(route, JArray(a + b)) ==
            WalkResult(Walk(route, JArray(a)).found + Walk(route, JArray(b)).found, None)
  {
    WalkItemsConcat(route, a, b);
  }

  /** An element's error is dropped: the elements before and after it are
      still walked, and the array walk succeeds. */
  lemma ArrayErrorsDiscarded(route: Route, a: seq<Json>, x: Json, b: seq<Json>)
    ensures Walk(route, JArray(a + [x] + b)) ==
            WalkResult(Walk(route, JArray(a)).found + Walk(route, x).found + Walk(route, JArray(b)).found, None)
  {
    WalkArrayConcat(route, a + [x], b);
    WalkArrayConcat(route, a, [x]);
    assert WalkItems(route, JArray([x]), 1) == [];
  }

  // ---- The object case ----

  lemma {:induction false} WalkFieldsSuffix(route: Route, fs: seq<(string, Json)>, i: nat)
    requires i <= |fs|
    ensures WalkFields(route, JObject(fs), i) == WalkFields(route, JObject(fs[i..]), 0)
    decreases |fs| - i
  {
    if i < |fs| {
      WalkFieldsSuffix(route, fs, i + 1);
      WalkFieldsSuffix(route, fs[i..], 1);
      assert fs[i..][1..] == fs[i + 1..];
      assert fs[i..][0] == fs[i];
    }
  }

  lemma {:induction false} WalkFieldsConcat(route: Route, a: seq<(string, Json)>, b: seq<(string, Json)>)
    ensures WalkFields(route, JObject(a + b), 0) ==
            Then(WalkFields(route, JObject(a), 0), WalkFields(route, JObject(b), 0))
  {
    if a == [] {
      assert a + b == b;
    } else {
      WalkFieldsSuffix(route, a + b, 1);
      WalkFieldsSuffix(route, a, 1);
      assert (a + b)[1..] == a[1..] + b;
      assert (a + b)[0] == a[0];
      assert WalkEntry(route, JObject(a + b), 0) == WalkEntry(route, JObject(a), 0);
      WalkFieldsConcat(route, a[1..], b);
      ThenAssociative(WalkEntry(route, JObject(a), 0), WalkFields(route, JObject(a[1..]), 0),
                      WalkFields(route, JObject(b), 0));
    }
  }

  /** Walking an object's entries is walking its first part, then (unless
      that failed) its second part. */
  lemma WalkObjectConcat(route: Route, a: seq<(string, Json)>, b: seq<(string, Json)>)
    ensures Walk(route, JObject(a + b)) == Then(Walk(route, JObject(a)), Walk(route, JObject(b)))
  {
    WalkFieldsConcat(route, a, b);
  }

  lemma WalkSingleEntry(route: Route, k: string, x: Json)
    ensures k == "data" ==> Walk(route, JObject([(k, x)])) == WalkResult(Walk(route, x).found, None)
    ensures k != "data" && x.JObject? ==> Walk(route, JObject([(k, x)])) == AccordingType(route, x.fields)
    ensures k != "data" && !x.JObject? ==> Walk(route, JObject([(k, x)])) == WalkResult([], None)
  {
    var v := JObject([(k, x)]);
    var e := WalkEntry(route, v, 0);
    assert WalkFields(route, v, 1) == WalkResult([], None);
    assert Walk(route, v) == Then(e, WalkResult([], None));
    assert e.found + [] == e.found;
    assert v.fields[0] == (k, x);
  }

  lemma WalkEntryBetween(route: Route, a: seq<(string, Json)>, e: (string, Json), b: seq<(string, Json)>)
    ensures Walk(route, JObject(a + [e] + b)) ==
            Then(Walk(route, JObject(a)), Then(Walk(route, JObject([e])), Walk(route, JObject(b))))
  {
    WalkObjectConcat(route, a, [e] + b);
    WalkObjectConcat(route, [e], b);
    assert a + [e] + b == a + ([e] + b);
  }

  /** A "data" entry's error is dropped and the walk continues with the
      next entry. */
  lemma DataErrorDiscarded(route: Route, a: seq<(string, Json)>, x: Json, b: seq<(string, Json)>)
    requires Walk(route, JObject(a)).err.None?
    ensures Walk(route, JObject(a + [("data", x)] + b)) ==
            WalkResult(Walk(route, JObject(a)).found + Walk(route, x).found + Walk(route, JObject(b)).found,
                       Walk(route, JObject(b)).err)
  {
    WalkEntryBetween(route, a, ("data", x), b);
    WalkSingleEntry(route, "data", x);
  }

  /** An entry other than "data" whose value is not an object adds nothing
      and raises nothing. */
  lemma NonObjectEntrySkipped(route: Route, a: seq<(string, Json)>, k: string, x: Json, b: seq<(string, Json)>)
    requires k != "data" && !x.JObject?
    ensures Walk(route, JObject(a + [(k, x)] + b)) == Walk(route, JObject(a + b))
  {
    var wa, wb := Walk(route, JObject(a)), Walk(route, JObject(b));
    WalkEntryBetween(route, a, (k, x), b);
    WalkSingleEntry(route, k, x);
    assert Then(WalkResult([], None), wb) == wb;
    WalkObjectConcat(route, a, b);
  }

  /** An object-valued entry without "type" fails the walk at once: what
      the entries before it added stays, the entries after it are never
      looked at. */
  lemma MissingTypeAborts(route: Route, a: seq<(string, Json)>, k: string, x: Json, b: seq<(string, Json)>)
    requires Walk(route, JObject(a)).err.None?
    requires k != "data" && x.JObject? && Lookup(x.fields, "type").None?
    ensures Walk(route, JObject(a + [(k, x)] + b)) ==
            WalkResult(Walk(route, JObject(a)).found, Some(MissingTypeField))
  {
    WalkEntryBetween(route, a, (k, x), b);
    WalkSingleEntry(route, k, x);
  }

  /** An object of asset entries that all carry a routed "type" yields
      exactly one record per entry, in entry order, and no error. */
  predicate RoutedAssetEntry(route: Route, e: (string, Json))
  {
    e.0 != "data" && e.1.JObject? &&
    Lookup(e.1.fields, "type").Some? && Lookup(e.1.fields, "type").value.JString? &&
    route(Lookup(e.1.fields, "type").value.s).Some?
  }

  function RoutedRecord(route: Route, e: (string, Json)): Found
    requires RoutedAssetEntry(route, e)
  {
    (route(Lookup(e.1.fields, "type").value.s).value, DecodeAsset(e.1.fields).value)
  }

  lemma RoutedEntryFound(route: Route, e: (string, Json))
    requires RoutedAssetEntry(route, e)
    ensures Walk(route, JObject([e])) == WalkResult([RoutedRecord(route, e)], None)
  {
    WalkSingleEntry(route, e.0, e.1);
  }

  lemma {:induction false} EveryAssetFound(route: Route, fs: seq<(string, Json)>)
    requires forall i :: 0 <= i < |fs| ==> RoutedAssetEntry(route, fs[i])
    ensures Walk(route, JObject(fs)).err.None?
    ensures |Walk(route, JObject(fs)).found| == |fs|
    ensures forall i :: 0 <= i < |fs| ==> Walk(route, JObject(fs)).found[i] == RoutedRecord(route, fs[i])
  {
    if fs != [] {
      var rest := Walk(route, JObject(fs[1..]));
      EveryAssetFound(route, fs[1..]);
      WalkObjectConcat(route, [fs[0]], fs[1..]);
      RoutedEntryFound(route, fs[0]);
      assert [fs[0]] + fs[1..] == fs;
      var all := Walk(route, JObject(fs));
      assert all == WalkResult([RoutedRecord(route, fs[0])] + rest.found, rest.err);
      FoundInEntryOrder(route, fs, all.found, rest.found);
    }
  }

  /** Prepending the first entry's record to the records of the others
      keeps every record at its entry's position. */
  lemma FoundInEntryOrder(route: Route, fs: seq<(string, Json)>, all: seq<Found>, rest: seq<Found>)
    requires fs != [] && forall i :: 0 <= i < |fs| ==> RoutedAssetEntry(route, fs[i])
    requires all == [RoutedRecord(route, fs[0])] + rest && |rest| == |fs| - 1
    requires forall i :: 0 <= i < |fs| - 1 ==> rest[i] == RoutedRecord(route, fs[1..][i])
    ensures forall i :: 0 <= i < |fs| ==> all[i] == RoutedRecord(route, fs[i])
  {
    forall i | 0 <= i < |fs|
      ensures all[i] == RoutedRecord(route, fs[i])
    {
      if i > 0 {
        assert all[i] == rest[i - 1];
        assert fs[1..][i - 1] == fs[i];
      }
    }
  }

  // ---- Where records go ----

  /** Every record the walk finds carries as its kind a "type" string that
      the route sends to the list it was found for. */
  predicate RoutedAsFound(route: Route, found: seq<Found>)
  {
    forall i :: 0 <= i < |found| ==> route(found[i].1.kind) == Some(found[i].0)
  }

  lemma {:induction false} WalkRoutes(route: Route, v: Json)
    ensures RoutedAsFound(route, Walk(route, v).found)
    decreases v, 1
  {
    match v
    case JArray(_) => WalkItemsRoutes(route, v, 0);
    case JObject(_) => WalkFieldsRoutes(route, v, 0);
    case _ =>
  }

  lemma {:induction false} WalkItemsRoutes(route: Route, v: Json, i: nat)
    requires v.JArray?
    ensures RoutedAsFound(route, WalkItems(route, v, i))
    decreases v, 0, |v.items| - i
  {
    if i < |v.items| {
      WalkRoutes(route, v.items[i]);
      WalkItemsRoutes(route, v, i + 1);
    }
  }

  lemma {:induction false} WalkFieldsRoutes(route: Route, v: Json, i: nat)
    requires v.JObject?
    ensures RoutedAsFound(route, WalkFields(route, v, i).found)
    decreases v, 0, |v.fields| - i
  {
    if i < |v.fields| {
      WalkEntryRoutes(route, v, i);
      WalkFieldsRoutes(route, v, i + 1);
    }
  }

  lemma {:induction false} WalkEntryRoutes(route: Route, v: Json, i: nat)
    requires v.JObject? && i < |v.fields|
    ensures RoutedAsFound(route, WalkEntry(route, v, i).found)
    decreases v, 0, 0
  {
    assert v.fields[i] in v.fields;
    var (k, x) := v.fields[i];
    if k == "data" {
      WalkRoutes(route, x);
    }
  }

  /** A list that the route never names receives nothing from a walk. */
  lemma UnroutedListUntouched(route: Route, v: Json, k: ListKind)
    requires forall s :: route(s) != Some(k)
    ensures Records(Walk(route, v).found, k) == []
  {
    WalkRoutes(route, v);
    RecordsNone(Walk(route, v).found, k);
  }

  /** Each record a list receives from a walk routes to that list. */
  lemma {:induction false} RecordsRouted(route: Route, found: seq<Found>, k: ListKind)
    requires RoutedAsFound(route, found)
    ensures forall i :: 0 <= i < |Records(found, k)| ==> route(Records(found, k)[i].kind) == Some(k)
  {
    if found != [] {
      RecordsRouted(route, found[1..], k);
    }
  }
}
