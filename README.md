# kubecost_exporter core, modelled in Dafny

kubecost_exporter is a Prometheus exporter for the Kubecost Assets and Allocation APIs. This project models the sequential parts of its core and proves properties of them:

- **The envelope walker and type dispatcher.** `CloudAssets.MapAssets`, `addAccordingType`, `Add*FromMap` and `Add*` walk the untyped JSON response of the Assets API. They append typed asset records to one list per asset kind. Two revisions of the walker are modelled as two modules:
  - `CloudAssetsFull` (`collector/cloudassets.go`): five lists, `disk`, `cloud`, `node`, `lb` and `cm`.
  - `AssetsApi` (`collector/assets_api.go`): two lists, `Disk` and `Cloud`, and a dispatcher that knows only `"Disk"`.
- **The label projectors.** They turn an asset or an allocation into aligned label names and values:
  - for assets, in `AssetLabels`, shared by both revisions, which carry the same code;
  - for allocations, in `AllocationApi`, including the `__idle__` case.
- **The scrape bodies.** These are `ScrapeAssets.Scrape` and `ScrapeAllocation.Scrape`. The API client is a function parameter, and the Prometheus channel becomes the returned sequence of metrics.
- **Request filtering and start-up selection.** Module `Handler` models the `collect[]` filter and the per-scraper `<name>[]` parameters of `newHandler`, and the choice of enabled scrapers in `main` (`main.go`).

Module layout:

| file | module | contents |
|---|---|---|
| errors.dfy | Errors | `Option`, `Result`, the exporter's error values |
| json.dfy | JsonValue | the untyped JSON value; keyed lookup |
| strings.dfy | Strings | `strings.ReplaceAll(s, "-", "_")`, `strings.Split` / `Join` |
| kubecost_api.dfy | KubecostApi | record shapes; `json.Unmarshal` of an asset object |
| metrics.dfy | Metrics | the emitted metric, `BuildFQName`, query parameters |
| envelope.dfy | Envelope | `Walk`, the walker's behaviour as a function, and its laws |
| asset_labels.dfy | AssetLabels | asset label projection |
| cloud_assets.dfy | CloudAssetsFull | the five-list class and dispatcher |
| assets_api.dfy | AssetsApi | the Disk-only class, dispatcher and `Scrape` |
| allocation_api.dfy | AllocationApi | allocation labels, `generateMetric`, `Scrape` |
| handler.dfy | Handler | scraper filtering and enabling |

JSON objects are modelled as sequences of entries. Go visits a map's entries in an unspecified order that can change from one `range` loop to the next. The sequence order stands for the order of the one loop that visits the map, so every claim holds whatever order that loop uses.

Both classes are proved against the same specification function `Envelope.Walk`, which takes a route table as a parameter. Each method's postcondition says that every list equals its old contents plus the records the walk finds for that list, and that the method returns the walk's error. The lemmas in `Envelope` then state the walker's error rules about `Walk`:
- element errors are dropped;
- errors from a `"data"` value are dropped;
- entries that are not objects are skipped;
- a missing `"type"` aborts the object loop.

## Model

| member | source | states |
|---|---|---|
| JsonValue.Lookup | collector/cloudassets.go:235-238 | `asset["type"]` with its `ok`: absent exactly when no entry has the key, otherwise the value of an entry with that key |
| JsonValue.LookupUnique | collector/cloudassets.go:235-238 | on an object with unique keys, as every decoded Go map has, `Lookup` gives a value exactly when that (key, value) entry is in the object |
| Strings.ReplaceDash | collector/cloudassets.go:191-196 | `strings.ReplaceAll(s, "-", "_")` keeps the length and replaces exactly the dashes |
| Strings.ReplaceDashNormalises | collector/cloudassets.go:191-196 | the rewritten string contains no dash, and rewriting again changes nothing |
| Strings.Split | main.go:67 | `strings.Split` yields at least one piece and no piece contains the separator |
| Strings.JoinSplit | main.go:67 | joining the pieces of a split with the separator gives back the original string |
| Strings.SplitJoin | main.go:67 | splitting a join of separator-free pieces gives back the pieces |
| KubecostApi.DecodeString | collector/cloudassets.go:265 | Unmarshal into a string field: a string is copied, absent or null leaves "" without error, and any other value leaves "" with an error |
| KubecostApi.FirstErrorOfFour | collector/cloudassets.go:265 | the first error of the four asset fields is nil exactly when each field decoded without error |
| KubecostApi.TagErrorsNone | collector/cloudassets.go:265 | decoding several tagged entries as strings reports no error exactly when each of them is absent, null or a string |
| KubecostApi.DecodePropertiesObject | collector/assets_api.go:100-109 | Unmarshal of an object into AssetProperties: each of the eight fields is the string decoded from the entry under its JSON tag, and there is an error exactly when one of those entries is neither absent, null nor a string |
| KubecostApi.FirstError | collector/cloudassets.go:265 | no error exactly when no field reported one |
| KubecostApi.DecodeProperties | collector/cloudassets.go:143 | the `*AssetProperties` pointer is nil exactly when "properties" is absent or null; an object allocates the struct DecodePropertiesObject decodes and reports that decode's error; any other value allocates an empty struct and reports an error |
| KubecostApi.DecodeLabels | collector/cloudassets.go:265 | an object becomes the labels map unchanged; absent or null gives an empty map without error; anything else gives an empty map with an error |
| KubecostApi.DecodeCost | collector/cloudassets.go:265 | a number is copied into totalCost; absent or null gives 0 without error; anything else gives 0 with an error |
| KubecostApi.DecodeAsset | collector/cloudassets.go:257-268 | the Marshal and Unmarshal round trip: the kind is the "type" string, the labels are the "labels" object, totalCost is the "totalCost" number, properties are nil exactly when absent or null and are DecodePropertiesObject's struct for an object; the decode reports an error exactly when one of the four fields does |
| KubecostApi.MismatchStillYieldsRecord | collector/cloudassets.go:265-267 | a wrongly typed field is reported, yet a record comes out with that field zeroed |
| Envelope.AccordingType | collector/cloudassets.go:233-252 | the dispatcher fails exactly when "type" is missing, then with no record; otherwise it returns at most one record, exactly when "type" is a string the route knows, tagged with that route's list |
| Envelope.Walk | collector/cloudassets.go:202-231 | MapAssets as a function of the value: an array never fails (line 206 drops element errors); a value that is neither array nor object gives "unknown map type" and no record; an object is the entry walk WalkFields |
| Envelope.WalkItems | collector/cloudassets.go:205-207 | the records of the array elements from `i` on; none past the last element |
| Envelope.WalkFields | collector/cloudassets.go:209-226 | the object entries from `i` on: nothing past the last entry, and an entry whose walk fails ends the walk with exactly that entry's result |
| Envelope.WalkEntry | collector/cloudassets.go:211-225 | one object entry: a "data" entry never fails, because line 213 drops its error |
| Envelope.Then | collector/cloudassets.go:220-222 | sequencing two walks: when the first fails, its result is the whole result (the `return err`) |
| Envelope.ScalarIsUnknown | collector/cloudassets.go:227-228 | a value that is neither array nor object gives the "unknown map type" error and no record |
| Envelope.WalkArrayConcat | collector/cloudassets.go:204-207 | an array walk never fails and walking `a + b` finds the records of `a`, then those of `b` |
| Envelope.ArrayErrorsDiscarded | collector/cloudassets.go:204-207 | an element whose own walk fails still contributes its records; the elements after it are walked and the array succeeds |
| Envelope.WalkObjectConcat | collector/cloudassets.go:208-226 | walking the entries `a + b` is walking `a`, then `b` unless `a` failed |
| Envelope.WalkSingleEntry | collector/cloudassets.go:209-225 | a single "data" entry gives its value's records without its error; an object entry gives the dispatcher's result; any other entry gives nothing |
| Envelope.DataErrorDiscarded | collector/cloudassets.go:211-213 | the error of a "data" value is dropped and the entries after it are still walked |
| Envelope.NonObjectEntrySkipped | collector/cloudassets.go:214-225 | a non-"data" entry whose value is not an object can be removed without changing the walk |
| Envelope.MissingTypeAborts | collector/cloudassets.go:219-222 | an object entry without "type" ends the walk with that error; earlier entries' records stay, later entries are not walked |
| Envelope.RoutedEntryFound | collector/cloudassets.go:218-221 | an object entry whose "type" the route knows yields exactly its decoded record |
| Envelope.EveryAssetFound | collector/cloudassets.go:208-226 | when every entry is a routable asset, the walk succeeds with one record per entry, in entry order |
| Envelope.WalkRoutes | collector/cloudassets.go:239-250 | every found record's kind routes to the list it was found for |
| Envelope.UnroutedListUntouched | collector/cloudassets.go:239-250 | a list that the route never names receives no record |
| Envelope.RecordsRouted | collector/cloudassets.go:239-250 | every record in a list's share of a walk has a kind routed to that list |
| AssetLabels.NonEmptyConcat | collector/cloudassets.go:150-181 | the `if len(field) > 0` filter keeps order: it distributes over concatenation |
| AssetLabels.PropertyPairs | collector/cloudassets.go:150-181 | getEnabledProperties' fixed table of eight (label, field) pairs |
| AssetLabels.PropertyLabelsDistinct | collector/cloudassets.go:150-181 | the eight `property_*` label names are pairwise distinct and none is "type", so the projection never repeats a fixed label |
| AssetLabels.NonEmptyMembers | collector/cloudassets.go:150-181 | the filter keeps a pair exactly when its value is non-empty |
| AssetLabels.FilterShape | collector/cloudassets.go:150-181 | a (label, field) pair is exported exactly when the field is non-empty, with name and value aligned |
| AssetLabels.EnabledProperties | collector/cloudassets.go:143-183 | getEnabledProperties: names and values of equal length, at most 8, and no value is "" |
| AssetLabels.EnabledPropertiesShape | collector/cloudassets.go:143-183 | each of category, name, cluster, service, account, project, provider and providerID is exported under its `property_*` label exactly when non-empty; the same body is at collector/assets_api.go:137-177 |
| AssetLabels.FreeFormLabels | collector/cloudassets.go:187-199 | getLabelsFromAsset: an error with no labels exactly when some value is not a string; otherwise every key and value with '-' rewritten, aligned with the input |
| AssetLabels.GetLabelsFromAsset | collector/cloudassets.go:187-199 | the loop over the labels returns exactly what FreeFormLabels specifies, including the early return on a non-string value |
| AssetLabels.DefaultLabels | collector/cloudassets.go:22-36 | getDefaultLabelsFor*, with a nil properties pointer read as empty: an error with empty result exactly when a label value is not a string; otherwise property labels, then "type" with the record's kind, then the free-form labels |
| AssetLabels.FreeFormLabelsHaveNoDash | collector/cloudassets.go:190-197 | no sanitised label name or value contains '-' |
| AssetLabels.DefaultLabelsLayout | collector/cloudassets.go:28-33 | positions `0..n` hold the non-empty properties, position `n` holds "type" with the kind, and the rest hold the sanitised labels; the lengths add up |
| AssetLabels.DefaultLabelsAsWritten | collector/cloudassets.go:22-36 | the code as written panics exactly when the labels convert and the record has no properties |
| AssetLabels.DefaultLabelsAgrees | collector/cloudassets.go:22-36 | wherever the code as written returns, it returns what DefaultLabels does |
| AssetLabels.DiskWithoutPropertiesPanics | collector/cloudassets.go:28 | the entry `{"type":"Disk","labels":{}}` decodes to a disk on which the code as written panics, while DefaultLabels gives just `type=Disk` |
| CloudAssetsFull.KindRoute | collector/cloudassets.go:239-250 | the five known type strings route to a list, "ClusterManagement" to the load-balancer list, and nothing routes to `cm` |
| CloudAssetsFull.CloudAssets.constructor | collector/cloudassets.go:325-332 | NewCloudAssets: all five lists empty |
| CloudAssetsFull.CloudAssets.AddDisk | collector/cloudassets.go:349-352 | appends one disk at the end; the other four lists are unchanged |
| CloudAssetsFull.CloudAssets.AddCloud | collector/cloudassets.go:354-357 | appends one cloud record; the other lists are unchanged |
| CloudAssetsFull.CloudAssets.AddNode | collector/cloudassets.go:359-362 | appends one node; the other lists are unchanged |
| CloudAssetsFull.CloudAssets.AddLoadBalancer | collector/cloudassets.go:364-367 | appends one load balancer; the other lists are unchanged |
| CloudAssetsFull.CloudAssets.AddClusterManagement | collector/cloudassets.go:369-372 | appends one cluster-management record; the other lists are unchanged |
| CloudAssetsFull.CloudAssets.AddDiskFromMap | collector/cloudassets.go:257-268 | appends the decoded disk even when decoding reported an error, and returns that error |
| CloudAssetsFull.CloudAssets.AddCloudFromMap | collector/cloudassets.go:273-284 | appends the decoded cloud record even on a decode error, and returns it |
| CloudAssetsFull.CloudAssets.AddNodeFromMap | collector/cloudassets.go:286-297 | appends the decoded node even on a decode error, and returns it |
| CloudAssetsFull.CloudAssets.AddLoadBalancerFromMap | collector/cloudassets.go:299-310 | appends the decoded load balancer even on a decode error, and returns it |
| CloudAssetsFull.CloudAssets.AddClusterManagementFromMap | collector/cloudassets.go:312-323 | appends the decoded record to `cm` even on a decode error, and returns it |
| CloudAssetsFull.CloudAssets.AddAccordingType | collector/cloudassets.go:233-252 | the lists grow by exactly the dispatcher's record, and the method returns the dispatcher's error |
| CloudAssetsFull.CloudAssets.MapAssets | collector/cloudassets.go:202-231 | each list grows by exactly its share of what the walk finds, in order; returns the walk's error; `cm` is never changed (the array loop, the object loop and one object entry are the helper methods MapItems, MapFields and MapEntry) |
| CloudAssetsFull.GetDefaultLabelsFromAssets | collector/cloudassets.go:99-139 | each of the five record types gets the corrected projection AssetLabels.DefaultLabels, which is the code's getDefaultLabelsFor* wherever that returns (a record without properties is under Left out); any other value gets empty, empty, nil |
| CloudAssetsFull.WalkSortsByType | collector/cloudassets.go:239-250 | after any walk, `disk` holds only "Disk", `cloud` only "Cloud", `node` only "Node", and `lb` only "LoadBalancer" or "ClusterManagement"; `cm` receives nothing |
| CloudAssetsFull.SortedByType | collector/cloudassets.go:239-250 | records routed by the dispatcher sit only in the list of their own "type" |
| CloudAssetsFull.DispatchCases | collector/cloudassets.go:233-252 | a missing "type" is an error; each known string appends one record to its own list, with "ClusterManagement" going to `lb`; any other value, including a non-string, appends nothing and returns nil |
| CloudAssetsFull.ExampleEnvelopeOneDisk | collector/cloudassets.go:202-252 | an example envelope `{"data":{"a1":{Disk, totalCost 12.5, cluster prod}}}` yields one disk costing 12.5, labelled `property_cluster=prod, type=Disk`, and no error |
| AssetsApi.DiskRoute | collector/assets_api.go:233-236 | this revision routes only "Disk", to the disk list |
| AssetsApi.CloudAssets.constructor | collector/assets_api.go:23-29 | NewCloudAssets: both lists empty |
| AssetsApi.CloudAssets.AddDisk | collector/assets_api.go:34-37 | appends one disk; Cloud is unchanged |
| AssetsApi.CloudAssets.AddCloud | collector/assets_api.go:39-42 | appends one cloud record; Disk is unchanged |
| AssetsApi.CloudAssets.AddDiskFromMap | collector/assets_api.go:243-254 | appends the decoded disk even on a decode error, and returns that error |
| AssetsApi.CloudAssets.AddCloudFromMap | collector/assets_api.go:259-270 | appends the decoded cloud record even on a decode error, and returns it |
| AssetsApi.CloudAssets.AddAccordingType | collector/assets_api.go:227-238 | Disk grows by exactly the dispatcher's record; returns the dispatcher's error; Cloud is unchanged |
| AssetsApi.CloudAssets.MapAssets | collector/assets_api.go:196-225 | Disk grows by exactly the walk's records, in order; Cloud never changes; returns the walk's error |
| AssetsApi.DispatchCases | collector/assets_api.go:227-238 | a missing "type" is an error; "Disk" appends one disk; every other value, including a non-string, adds nothing and returns nil |
| AssetsApi.DisksAreAllFound | collector/assets_api.go:233-236 | every record this revision finds is a disk, of kind "Disk" |
| AssetsApi.GetDefaultLabelsFromAssets | collector/assets_api.go:112-133 | a disk gets the corrected projection AssetLabels.DefaultLabels: properties, then "type", then sanitised labels (a disk without properties is under Left out); any other value gets empty, empty, nil |
| AssetsApi.DiskMetric | collector/assets_api.go:86-93 | the disk gauge is `assets_cost_total` with the disk's total cost and aligned labels |
| AssetsApi.EmitDisks | collector/assets_api.go:78-94 | the disk loop as a function: at most one metric per disk (EmitDisksInOrder, EmitDisksComplete and EmitDisksStopsAtFailure state which) |
| AssetsApi.EmitDisksInOrder | collector/assets_api.go:79-94 | the i-th metric sent is the i-th disk's, and every disk sent had its labels project |
| AssetsApi.EmitDisksComplete | collector/assets_api.go:78-95 | emission reports no error exactly when every disk's labels project, and then every disk is sent |
| AssetsApi.EmitDisksStopsAtFailure | collector/assets_api.go:82-85 | on a label failure, emission stops at the first failing disk and returns its error; the earlier disks stay sent |
| AssetsApi.SendDisks | collector/assets_api.go:76-94 | the disk loop sends exactly the metrics EmitDisks specifies and returns its first label failure |
| AssetsApi.Scrape | collector/assets_api.go:61-98 | fetches with the caller's params plus "accumulate=true"; a fetch error returns with nothing sent; otherwise it sends the disks' metrics up to the first label failure and returns that error, or else the walk's error |
| AssetsApi.NoDisksNoMetrics | collector/assets_api.go:76-97 | this revision has no disks exactly when its walk finds no record at all, and then the disk loop sends nothing and reports no error |
| AllocationApi.AllocationEnabledProperties | collector/allocation_api.go:66-95 | names and values of equal length, at most 7, and no value is "" |
| AllocationApi.AllocationPropertyPairs | collector/allocation_api.go:68-95 | getDefaultLabels' fixed table of seven (label, field) pairs |
| AllocationApi.AllocationPropertyLabelsDistinct | collector/allocation_api.go:68-95 | the seven `property_*` label names are pairwise distinct |
| AllocationApi.MetricName | collector/allocation_api.go:114 | `BuildFQName(namespace, promDesc, "total")` is `assets_cost_cluster_allocation_total` |
| AllocationApi.GetDefaultAllocationLabels | collector/allocation_api.go:100-106 | it only appends: the earlier names and values are an unchanged prefix, each grows by the number of labels, with key and value sanitised; it never fails |
| AllocationApi.AppendedLabels | collector/allocation_api.go:100-106 | what getDefaultAllocationLabels leaves is the old lists followed by the sanitised keys and values |
| AllocationApi.DefaultLabels | collector/allocation_api.go:58-98 | getDefaultLabels never fails and keeps names and values aligned; `__idle__` gets exactly `property_cluster` and `property_namespace=__idle__`, with free-form labels ignored and an empty cluster kept |
| AllocationApi.DefaultLabelsLayout | collector/allocation_api.go:66-97 | a non-idle allocation: namespace, node, cluster, provider_id, container, controller and pod, each exported exactly when non-empty, then every free-form label sanitised and dash-free |
| AllocationApi.DefaultLabelsAsWritten | collector/allocation_api.go:58-98 | getDefaultLabels as written, branch by branch on the properties pointer: it panics exactly when the allocation has no properties (line 63 in the idle branch, line 68 otherwise) |
| AllocationApi.DefaultLabelsAgrees | collector/allocation_api.go:58-98 | the code as written returns exactly when there are properties, and then returns what the corrected DefaultLabels does |
| AllocationApi.IdleWithoutPropertiesPanics | collector/allocation_api.go:62-63 | an `__idle__` allocation without properties panics as written; DefaultLabels gives an empty cluster |
| AllocationApi.GenerateMetric | collector/allocation_api.go:108-122 | the gauge is `assets_cost_cluster_allocation_total` and carries the allocation's total cost and its default labels, aligned |
| AllocationApi.IdleExample | collector/allocation_api.go:62-64 | an example idle allocation of cluster eu-1 costing 3.0 becomes exactly `property_cluster=eu-1, property_namespace=__idle__` with value 3.0 |
| AllocationApi.ScrapeWindow | collector/allocation_api.go:36-38 | the window starts `offset` days before today and ends one day later |
| AllocationApi.EmitAllocations | collector/allocation_api.go:51-53 | the loop over `Data[0]` emits one metric per entry, in order |
| AllocationApi.Scrape | collector/allocation_api.go:32-55 | fetches with the caller's params, then the window, then "accumulate=true"; a fetch error is returned; empty data is the "empty allocations" error with nothing sent; otherwise one metric per entry of `Data[0]`, in order, and no error |
| Handler.Scraper.Name | collector/assets_api.go:53-55 | ScrapeAssets is named `scrape_assets` and ScrapeAllocation `scrape_allocation` (collector/allocation_api.go:24-26) |
| Handler.NamesUnique | collector/allocation_api.go:15-17 | the two scraper names differ |
| Handler.QueryValues | main.go:45 | an absent query key has no values |
| Handler.Selected | main.go:58-61 | a scraper is kept exactly when it is listed and its name is in the filter set |
| Handler.SelectedConcat | main.go:59-61 | selection keeps the original order: it distributes over concatenation |
| Handler.SelectedNoDuplicates | main.go:53-61 | a scraper listed once is selected at most once, however often the query repeats its name |
| Handler.ScraperParams | main.go:62-69 | a params entry exists exactly for a selected scraper with a `<name>[]` value, and holds the first such value split on ',' |
| Handler.CollectNames | main.go:45 | the filter set is exactly the `collect[]` values |
| Handler.CollectFilters | main.go:53-56 | the `filters` map is true exactly for the `collect[]` values |
| Handler.SelectScrapers | main.go:58-71 | the loop keeps exactly the selected scrapers, in order, and builds exactly their params |
| Handler.FilterScrapers | main.go:44-73 | without `collect[]`, every scraper runs with no params; with it, exactly the named scrapers run, in original order, with their params |
| Handler.NoMatchSelectsNothing | main.go:58-61 | a filter that names no scraper selects none |
| Handler.ParamsOnlyForSelected | main.go:60-69 | an unselected scraper never gets a params entry |
| Handler.RepeatedCollectIgnored | main.go:54-56 | repeating a `collect[]` value leaves the filter set unchanged |
| Handler.Enabled | main.go:128-134 | a scraper is enabled exactly when its flag is true |
| Handler.EnabledScrapers | main.go:128-134 | the start-up loop returns exactly the scrapers whose flag is set, in flag order |
| Handler.DefaultsEnableBoth | main.go:37-40 | with every flag at its default, both scrapers are enabled |

## Left out

- Logging, the `fmt.Errorf` message texts and the `Help()` strings are left out. Errors are distinguished only by the `Errors.Error` constructor.
- The exporter's goroutines, wait group, error counters and gauges (collector/exporter.go) are concurrency and Prometheus state. The scrape-cycle example in which one source fails while another succeeds belongs to that file and is not part of this model.
- The HTTP client, the TLS transport and response decoding (kubecost_api/client.go) are I/O. The client is a function parameter of each `Scrape`.
- kubecost_api/client.go's `NewApiClient` takes three arguments, while collector/assets_api.go:63 passes two. kubecost_api/client.go and collector/assets_api.go come from different revisions, and the construction of the client is not modelled.
- collector/scraper.go's `Scrape` signature differs from the one in collector/allocation_api.go. Each scraper is modelled with its own signature.
- `json.Marshal` before `Unmarshal` in `Add*FromMap` cannot fail on a map decoded from JSON, so its error branch is left out. Unmarshal's case-insensitive key matching is not modelled: keys match exactly.
- `time.Now`, `AddDate`, `TruncateDate` and RFC 3339 formatting are not modelled. A day is an integer, and the window parameter is `Window(fromDay, toDay)`.
- `TotalCost` is a `real` passed through unchanged. Floating-point behaviour and the other numeric and time fields of the records are left out.
- KubecostApi.DecodeAsset: the time fields (`start`, `end`, `window`) are not modelled. In Go, a malformed time value makes its own `UnmarshalJSON` fail, and that error stops `Unmarshal` at once. The fields later in sorted key order then stay zero: after a malformed `end` these are `labels`, `properties`, `totalCost` and `type`, after a malformed `start` `totalCost` and `type`. `Add*FromMap` still appends the record. The model decodes every modelled field regardless. Type errors in the unmodelled fields (for example `"bytes":"x"` or `"minutes":"x"`) are not reported either: Go saves them and returns a non-nil error, where the model's error is None. The `Add*FromMap` members therefore return None where Go's method would return that error; addAccordingType discards it in both revisions (collector/cloudassets.go:240-250, collector/assets_api.go:233-236), so nothing observable beyond those methods changes.
- CloudAssetsFull.WalkSortsByType: "`disk` holds only "Disk"" and the like hold for records whose `start` and `end` are well formed; a record cut short by a malformed `start` or `end` has an empty kind in the code.
- Envelope.WalkRoutes: "every found record's kind routes to its list" holds for records whose `start` and `end` are well formed. In the code, a record cut short by a malformed `start` or `end` keeps an empty kind, yet it was routed by the raw "type" entry.
- Envelope.RecordsRouted: "each record in a list's share has a kind routed to that list" holds for records whose `start` and `end` are well formed; a record cut short by a malformed `start` or `end` has an empty kind that routes nowhere.
- CloudAssetsFull.SortedByType: "records sit only in the list of their own type" holds for records whose `start` and `end` are well formed; a record cut short by a malformed `start` or `end` sits in the list of its raw "type" with an empty kind.
- AssetsApi.DisksAreAllFound: "of kind "Disk"" holds for disks whose `start` and `end` are well formed; a disk cut short by a malformed `start` or `end` has an empty kind in the code.
- `prometheus.NewDesc` / `MustNewConstMetric` become a `Metric` value. Their panics on invalid or duplicate label names are not modelled; the proofs show only that names and values are aligned.
- Go map iteration order is unspecified and can differ between two `range` loops over the same map. Each map in the core (the envelope object in MapAssets, the labels map in getLabelsFromAsset, the flag map in `main`) is ranged over once, and its sequence order stands for that one loop's order. Nothing is claimed about one order over another.
- kubecost_api/assets_items.go declares a four-field inline `Properties` struct for disks. The collector code instead reads an eight-field `*AssetProperties` (collector/cloudassets.go:143). The model follows the collector, and the `CloudAssetCloud`, `CloudAssetNode`, `CloudAssetLoadBalancer` and `CloudAssetClusterManagement` types are inferred from their uses.
- `GetDisks`, `GetClouds`, `GetNodes` and `GetLoadBalancers` only return a field. They are the class's fields in the model.
- Every member built on the corrected projections (AssetLabels.DefaultLabels and AllocationApi.DefaultLabels) differs from the code as written on a record without properties: the model exports it with empty properties, the code panics (see Findings). These members are listed one per line below.
- CloudAssetsFull.GetDefaultLabelsFromAssets: a record without properties gets its "type" and labels instead of the panic.
- AssetsApi.GetDefaultLabelsFromAssets: a disk without properties gets its "type" and labels instead of the panic.
- AssetsApi.DiskMetric: a disk without properties gives a metric labelled only by "type" and its labels instead of the panic.
- AssetsApi.EmitDisks: a disk without properties is emitted instead of panicking.
- AssetsApi.SendDisks: a disk without properties is sent instead of panicking.
- AssetsApi.Scrape: a disk without properties is sent instead of panicking.
- AllocationApi.GenerateMetric: an allocation without properties gives a metric with empty properties instead of the panic.
- AllocationApi.EmitAllocations: an allocation without properties is emitted instead of panicking.
- AllocationApi.Scrape: an allocation without properties is sent instead of panicking.
- The `generateMetric` error is always nil in the code, so ignoring it (collector/allocation_api.go:52) is modelled as a function with no error result.
- The `offset` and day arithmetic of `ScrapeAllocation.Scrape` is unbounded. The `int64` to `int` conversion is not modelled.

## Findings

| source | as written | input that shows it | evidently intended | confidence | as-written member | corrected member |
|---|---|---|---|---|---|---|
| collector/cloudassets.go:28 (also :44, :58, :73, :88 and collector/assets_api.go:124) | getEnabledProperties reads `properties.Category` through the `*AssetProperties` pointer. The pointer is nil when the asset object has no "properties" key, so the scrape panics. | the asset entry `{"type":"Disk","labels":{}}` | an asset without properties is exported with just its `type` and free-form labels | not executed; the pointer type is read off the parameter at collector/cloudassets.go:143, and kubecost_api/assets_items.go does not declare a disk record with a pointer `Properties` | AssetLabels.DefaultLabelsAsWritten, AssetLabels.DiskWithoutPropertiesPanics | AssetLabels.DefaultLabels |
| collector/allocation_api.go:63 (and :68-92) | getDefaultLabels reads `allocation.Properties.Cluster` and the other fields through the `*AllocationProperties` pointer, which is nil when the allocation has no "properties" key (`omitempty`, kubecost_api/cost_data_items.go:45) | the allocation `{"name":"__idle__","totalCost":3.0}` | an allocation without properties is exported with empty properties | not executed | AllocationApi.DefaultLabelsAsWritten, AllocationApi.IdleWithoutPropertiesPanics | AllocationApi.DefaultLabels |
