/** collector/allocation_api.go: the label projection of cost allocations
    (with the "__idle__" special case), the metric built for each, and the
    ScrapeAllocation scraper. */
module AllocationApi {
  import opened Errors
  import opened Strings
  import opened KubecostApi
  import opened AssetLabels
  import opened Metrics

  /** scrapeAllocationSubsystemName, the scraper's Name(). */
  const Name := "scrape_allocation"

  /** promDesc, the metric subsystem. */
  const Subsystem := "cost_cluster_allocation"

  /** The allocation name Kubecost gives to idle resources. */
  const IdleName := "__idle__"

  /** The fixed (label, property) order of getDefaultLabels. */
  function AllocationPropertyPairs(p: AllocationProperties): (r: seq<(string, string)>)
    ensures |r| == 7
  {
    [("property_namespace", p.namespace), ("property_node", p.node),
     ("property_cluster", p.cluster), ("property_provider_id", p.providerID),
     ("property_container", p.container), ("property_controller", p.controller),
     ("property_pod", p.pod)]
  }

  /** The seven property labels are distinct. */
  lemma AllocationPropertyLabelsDistinct(p: AllocationProperties)
    ensures var r := AllocationPropertyPairs(p);
            forall i, j :: 0 <= i < j < |r| ==> r[i].0 != r[j].0
  {
  }

  /** The non-empty properties as labels, in the table's order. */
  function AllocationEnabledProperties(p: AllocationProperties): (r: (seq<string>, seq<string>))
    ensures |r.0| == |r.1| <= 7
    ensures forall i :: 0 <= i < |r.1| ==> r.1[i] != ""
  {
    var kept := NonEmpty(AllocationPropertyPairs(p));
    (Names(kept), Values(kept))
  }

  /** The free-form label keys with '-' replaced by '_'. */
  function SanitisedNames(labels: seq<(string, string)>): (r: seq<string>)
    ensures |r| == |labels| && forall i :: 0 <= i < |labels| ==> r[i] == ReplaceDash(labels[i].0)
  {
    if labels == [] then [] else [ReplaceDash(labels[0].0)] + SanitisedNames(labels[1..])
  }

  /** The free-form label values with '-' replaced by '_'. */
  function SanitisedValues(labels: seq<(string, string)>): (r: seq<string>)
    ensures |r| == |labels| && forall i :: 0 <= i < |labels| ==> r[i] == ReplaceDash(labels[i].1)
  {
    if labels == [] then [] else [ReplaceDash(labels[0].1)] + SanitisedValues(labels[1..])
  }

  /** getDefaultAllocationLabels: append every free-form label, sanitised,
      to the label names and values it is handed (through pointers in the
      code); it cannot fail. */
  method GetDefaultAllocationLabels(labelNames: seq<string>, labelValues: seq<string>, labels: seq<(string, string)>)
    returns (names: seq<string>, values: seq<string>, err: Option<Error>)
    ensures |names| == |labelNames| + |labels| && |values| == |labelValues| + |labels|
    ensures names[..|labelNames|] == labelNames && values[..|labelValues|] == labelValues
    ensures forall i :: 0 <= i < |labels| ==>
              names[|labelNames| + i] == ReplaceDash(labels[i].0) && values[|labelValues| + i] == ReplaceDash(labels[i].1)
    ensures err.None?
  {
    names, values := labelNames, labelValues;
    for i := 0 to |labels|
      invariant |names| == |labelNames| + i && |values| == |labelValues| + i
      invariant names[..|labelNames|] == labelNames && values[..|labelValues|] == labelValues
      invariant forall j :: 0 <= j < i ==>
                  names[|labelNames| + j] == ReplaceDash(labels[j].0) && values[|labelValues| + j] == ReplaceDash(labels[j].1)
    {
      var (name, value) := labels[i];
      names := names + [ReplaceDash(name)];
      values := values + [ReplaceDash(value)];
    }
    err := None;
  }

  /** Appending through getDefaultAllocationLabels is concatenation with the
      sanitised labels. */
  lemma AppendedLabels(labelNames: seq<string>, labelValues: seq<string>, labels: seq<(string, string)>,
                       names: seq<string>, values: seq<string>)
    requires |names| == |labelNames| + |labels| && |values| == |labelValues| + |labels|
    requires names[..|labelNames|] == labelNames && values[..|labelValues|] == labelValues
    requires forall i :: 0 <= i < |labels| ==>
               names[|labelNames| + i] == ReplaceDash(labels[i].0) && values[|labelValues| + i] == ReplaceDash(labels[i].1)
    ensures names == labelNames + SanitisedNames(labels) && values == labelValues + SanitisedValues(labels)
  {
    assert names == names[..|labelNames|] + names[|labelNames|..];
    assert values == values[..|labelValues|] + values[|labelValues|..];
  }

  /** A nil properties pointer read as the empty struct. */
  function AllocationPropertiesOrEmpty(p: Option<AllocationProperties>): AllocationProperties
  {
    match p
    case Some(props) => props
    case None => EmptyAllocationProperties
  }

  /** getDefaultLabels, with an absent "properties" read as empty (see
      DefaultLabelsAsWritten for what the code does instead). An idle
      allocation gets exactly its cluster and namespace "__idle__";
      any other the non-empty properties followed by the sanitised
      free-form labels. It never fails. */
  function DefaultLabels(a: Allocation): (r: Projection)
    ensures r.err.None? && |r.names| == |r.values|
    ensures a.name == IdleName ==>
              r == Projection(["property_cluster", "property_namespace"],
                              [AllocationPropertiesOrEmpty(a.properties).cluster, IdleName], None)
  {
    var props := AllocationPropertiesOrEmpty(a.properties);
    if a.name == IdleName then
      Projection(["property_cluster", "property_namespace"], [props.cluster, a.name], None)
    else
      var enabled := AllocationEnabledProperties(props);
      Projection(enabled.0 + SanitisedNames(props.labels), enabled.1 + SanitisedValues(props.labels), None)
  }

  /** A non-idle allocation: first the properties, each exported exactly
      when non-empty, in the fixed order; then every free-form label, its
      key and value sanitised and holding no dash. */
  lemma DefaultLabelsLayout(a: Allocation)
    requires a.name != IdleName
    ensures var r := DefaultLabels(a);
            var props := AllocationPropertiesOrEmpty(a.properties);
            var n := |NonEmpty(AllocationPropertyPairs(props))|;
            |r.names| == n + |props.labels| &&
            (forall e :: e in AllocationPropertyPairs(props) ==>
               (e.1 != "" <==> Exported(r.names[..n], r.values[..n], e.0, e.1))) &&
            (forall i :: 0 <= i < n ==> r.values[i] != "") &&
            (forall i :: 0 <= i < |props.labels| ==>
               r.names[n + i] == ReplaceDash(props.labels[i].0) && r.values[n + i] == ReplaceDash(props.labels[i].1) &&
               '-' !in r.names[n + i] && '-' !in r.values[n + i])
  {
    var r := DefaultLabels(a);
    var props := AllocationPropertiesOrEmpty(a.properties);
    var kept := NonEmpty(AllocationPropertyPairs(props));
    var n := |kept|;
    assert r.names[..n] == Names(kept) && r.values[..n] == Values(kept);
    FilterShape(AllocationPropertyPairs(props));
    forall i | 0 <= i < |props.labels|
      ensures '-' !in ReplaceDash(props.labels[i].0) && '-' !in ReplaceDash(props.labels[i].1)
    {
      ReplaceDashNormalises(props.labels[i].0);
      ReplaceDashNormalises(props.labels[i].1);
    }
  }

  /** getDefaultLabels exactly as written: both branches read through the
      Properties pointer (`allocation.Properties.Cluster`,
      `allocation.Properties.Namespace`), which panics when the allocation
      had no "properties". */
  function DefaultLabelsAsWritten(a: Allocation): (r: Call<Projection>)
    ensures r.NilDereference? <==> a.properties.None?
  {
    match a.properties
    case None => NilDereference
    case Some(p) =>
      if a.name == IdleName then
        Returns(Projection(["property_cluster", "property_namespace"], [p.cluster, a.name], None))
      else
        var enabled := AllocationEnabledProperties(p);
        Returns(Projection(enabled.0 + SanitisedNames(p.labels), enabled.1 + SanitisedValues(p.labels), None))
  }

  /** Wherever the code as written returns, DefaultLabels returns the same;
      it differs only by not panicking. */
  lemma DefaultLabelsAgrees(a: Allocation)
    ensures DefaultLabelsAsWritten(a).Returns? ==> DefaultLabelsAsWritten(a).value == DefaultLabels(a)
    ensures DefaultLabelsAsWritten(a).Returns? <==> a.properties.Some?
  {
  }

  /** An idle allocation without "properties": the code as written panics,
      DefaultLabels gives the empty cluster and namespace "__idle__". */
  lemma IdleWithoutPropertiesPanics()
    ensures DefaultLabelsAsWritten(Allocation(IdleName, None, 3.0)) == NilDereference
    ensures DefaultLabels(Allocation(IdleName, None, 3.0)) ==
            Projection(["property_cluster", "property_namespace"], ["", IdleName], None)
  {
  }

  /** The gauge's fully qualified name. */
  lemma MetricName()
    ensures FQName(Namespace, Subsystem, "total") == "assets_cost_cluster_allocation_total"
  {
    assert Namespace + "_" == "assets_";
    assert "assets_" + Subsystem == "assets_cost_cluster_allocation";
    assert "assets_cost_cluster_allocation" + "_" == "assets_cost_cluster_allocation_";
  }

  /** generateMetric: the allocation's total cost under its labels. */
  function GenerateMetric(a: Allocation): (m: Metric)
    ensures m.fqName == "assets_cost_cluster_allocation_total"
    ensures m.value == a.totalCost
    ensures m.labelNames == DefaultLabels(a).names && m.labelValues == DefaultLabels(a).values
    ensures |m.labelNames| == |m.labelValues|
  {
    var labels := DefaultLabels(a);
    MetricName();
    Metric(FQName(Namespace, Subsystem, "total"), labels.names, labels.values, a.totalCost)
  }

  /** An example idle allocation (cluster "eu-1", total
      cost 3.0) is exported as exactly property_cluster=eu-1,
      property_namespace=__idle__ with value 3.0. */
  lemma IdleExample()
    ensures var m := GenerateMetric(Allocation(IdleName, Some(EmptyAllocationProperties.(cluster := "eu-1")), 3.0));
            m.labelNames == ["property_cluster", "property_namespace"] &&
            m.labelValues == ["eu-1", "__idle__"] && m.value == 3.0
  {
  }

  /** The window parameter of a scrape: from `offset` days before today to
      the day after that. */
  function ScrapeWindow(today: int, offset: int): (w: QueryParam)
    ensures w.Window? && w.fromDay == today - offset && w.toDay == w.fromDay + 1
  {
    Window(today - offset, today - offset + 1)
  }

  /** The loop over `Data[0]`: one metric per entry, in order. */
  method EmitAllocations(entries: seq<(string, Allocation)>) returns (emitted: seq<Metric>)
    ensures |emitted| == |entries|
    ensures forall i :: 0 <= i < |entries| ==> emitted[i] == GenerateMetric(entries[i].1)
  {
    emitted := [];
    for i := 0 to |entries|
      invariant |emitted| == i
      invariant forall j :: 0 <= j < i ==> emitted[j] == GenerateMetric(entries[j].1)
    {
      var m := GenerateMetric(entries[i].1);
      emitted := emitted + [m];
      assert emitted[i] == m;
    }
  }

  /** ScrapeAllocation.Scrape, with `getAllocation` standing for the API
      client's GetAllocation and `today` for the current day: the query is
      the caller's parameters, then the window, then "accumulate=true"; a
      fetch error is returned; an empty data list is the "empty
      allocations" error; otherwise one metric per entry of the first data
      element, in order, and no error. */
  method Scrape(params: seq<QueryParam>, today: int, offset: int,
                getAllocation: seq<QueryParam> -> Result<CostDataResponse>)
    returns (emitted: seq<Metric>, err: Option<Error>)
    ensures var costs := getAllocation(params + [ScrapeWindow(today, offset), Accumulate]);
            costs.Failure? ==> emitted == [] && err == Some(costs.error)
    ensures var costs := getAllocation(params + [ScrapeWindow(today, offset), Accumulate]);
            costs.Success? && costs.value.data == [] ==> emitted == [] && err == Some(EmptyAllocations)
    ensures var costs := getAllocation(params + [ScrapeWindow(today, offset), Accumulate]);
            costs.Success? && costs.value.data != [] ==>
              err.None? && |emitted| == |costs.value.data[0]| &&
              forall i :: 0 <= i < |emitted| ==> emitted[i] == GenerateMetric(costs.value.data[0][i].1)
  {
    var query := params + [ScrapeWindow(today, offset)];
    query := query + [Accumulate];
    assert query == params + [ScrapeWindow(today, offset), Accumulate];
    var costs := getAllocation(query);
    if costs.Failure? {
      return [], Some(costs.error);
    }
    if |costs.value.data| == 0 {
      return [], Some(EmptyAllocations);
    }
    emitted := EmitAllocations(costs.value.data[0]);
    err := None;
  }
}
