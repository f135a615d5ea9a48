/** The metrics handed to the Prometheus channel, reduced to what the sink
    receives: the fully qualified name, the label names, the label values
    in the same order, and the gauge value. */
module Metrics {

  /** The exporter's metric namespace. */
  const Namespace := "assets"

  datatype Metric = Metric(fqName: string, labelNames: seq<string>, labelValues: seq<string>, value: real)

  /** `prometheus.BuildFQName` for non-empty parts. */
  function FQName(namespace: string, subsystem: string, name: string): string
  {
    namespace + "_" + subsystem + "_" + name
  }

  /** The query parameters a scraper hands to the API client. The window
      parameter is kept as its two day numbers; its RFC 3339 spelling is
      not modelled. */
  datatype QueryParam = Param(text: string) | Window(fromDay: int, toDay: int)

  const Accumulate := Param("accumulate=true")
}
