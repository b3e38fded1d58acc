/** The output record produced by a flush: name, type, value and tags. */
module Metrics {
  import opened MetricContexts

  /** A flushed metric. As in the source, it keeps its name and tags as a context. */
  datatype Metric = Metric(context: Context, metricType: String, value: real)
  {
    function Name(): String { context.name }
    function Tags(): seq<String> { context.tags }
  }

  /** The record's constructor: every getter gives back what it was built from. */
  function NewMetric(name: String, metricType: String, value: real, tags: seq<String>): (m: Metric)
    ensures m.Name() == name && m.Tags() == tags
    ensures m.metricType == metricType && m.value == value
  {
    Metric(Context(name, tags), metricType, value)
  }
}
