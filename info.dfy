/**
 * What every metric provider hands to the aggregator: an `IInfoData` object
 * from metric name to either a number or a Counter, and the static
 * `IInfoDescription` documenting those names.
 */
module Info {
  import opened Counters

  /** `number | Counter`, as a tagged variant. */
  datatype MetricValue = Scalar(x: real) | Ctr(c: Counter)

  /** The entries of an `IInfoData` object, in `Object.entries` order. */
  type InfoData = seq<(string, MetricValue)>

  /** The `{ type, label }` metadata of one metric. */
  datatype Description = Description(typeName: string, labelText: string)

  type InfoDescription = map<string, Description>

  function Names(d: InfoData): set<string>
  {
    set i | 0 <= i < |d| :: d[i].0
  }

  /** An object never holds one property name twice. */
  predicate UniqueNames(d: InfoData)
  {
    forall i, j :: 0 <= i < j < |d| ==> d[i].0 != d[j].0
  }

  /** Unique names, and every Counter a proper Map with unique keys. */
  predicate WellFormed(d: InfoData)
  {
    && UniqueNames(d)
    && forall i :: 0 <= i < |d| && d[i].1.Ctr? ==> UniqueKeys(d[i].1.c)
  }
}
