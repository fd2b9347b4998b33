/**
 * The shapes exchanged with the Prometheus metrics backend: the response
 * bodies the normalisers read, the queries the component issues, the metric
 * catalog, and the label-selector strings the queries are built from.
 */
module Prometheus {
  import opened Wrappers

  /** One element of a value tuple: the cell's string value. */
  type Cell = string

  /** A value tuple `[timestamp, value]`; a usable one has at least two cells. */
  type Tuple = seq<Cell>

  /**
   * One element of `data.result`: its label set `metric`, the range-query
   * field `values` and the instant-query field `value`. Each may be absent,
   * and an entry of `values` may itself be null.
   */
  datatype Sample = Sample(metric: Option<map<string, string>>, values: Option<seq<Option<Tuple>>>, value: Option<Tuple>)

  /** The `data` object of a response; its `result` may be absent. */
  datatype Data = Data(result: Option<seq<Sample>>)

  /** A backend response; its `data` may be absent. */
  datatype Response = Response(data: Option<Data>)

  /** A JavaScript number as the normalisers produce it (or `undefined`). */
  datatype Num = Undefined | NaN | Fin(r: real)

  /** A chart point `{x, y}`. */
  datatype Point = Point(x: Num, y: Num)

  /**
   * The floating-point work the model does not interpret: `parse` is the
   * finite number `parseFloat` reads from a cell (None for NaN), `round2` is
   * `parseFloat(v.toFixed(2))`.
   */
  datatype Numerics = Numerics(parse: Cell -> Option<real>, round2: real -> real)

  /** `parseFloat(c)`; an absent cell reads as NaN. */
  function ParseFloat(nums: Numerics, c: Option<Cell>): (n: Num)
    ensures n != Undefined
    ensures n.Fin? <==> c.Some? && nums.parse(c.value).Some?
    ensures n.Fin? ==> n.r == nums.parse(c.value).value
  {
    match c
    case None => NaN
    case Some(text) =>
      match nums.parse(text)
      case None => NaN
      case Some(r) => Fin(r)
  }

  /** The two query modes of `fetchPrometheus`. */
  datatype Mode = Current | Range

  /**
   * One call of `fetchPrometheus(expr, mode, params)`; `expr` is None when the
   * catalog lookup that produced it gave `undefined`.
   */
  datatype Query = Query(expr: Option<string>, mode: Mode, params: map<string, string>)

  /** What a fetch does: it throws, or it resolves to a response body. */
  datatype Outcome = Fail | Ok(response: Response)

  /** The metric catalog: a dotted metric key to its list of query URLs. */
  type Catalog = map<string, seq<string>>

  /** lodash `get(catalog, key + '.url[0]')`. */
  function CatalogUrl(catalog: Catalog, key: string): (u: Option<string>)
    ensures u.Some? <==> key in catalog && |catalog[key]| > 0
    ensures u.Some? ==> u.value == catalog[key][0]
  {
    if key in catalog && |catalog[key]| > 0 then Some(catalog[key][0]) else None
  }

  /** The label-matcher text `metric{label="value"}`, with no space before the brace. */
  function Selector(metric: string, key: string, value: string): string {
    metric + "{" + key + "=\"" + value + "\"}"
  }

  /** Reads back the value of a `metric{label="..."}` selector, if `q` is one. */
  function SelectorValue(q: string, metric: string, key: string): Option<string> {
    var head := metric + "{" + key + "=\"";
    if |q| >= |head| + 2 && q[..|head|] == head && q[|q| - 2..] == "\"}"
    then Some(q[|head|..|q| - 2])
    else None
  }

  /**
   * A selector begins with the metric name immediately followed by `{`, and
   * the label value can be read back from it unchanged.
   */
  lemma SelectorRoundTrip(metric: string, key: string, value: string)
    ensures var q := Selector(metric, key, value);
      metric + "{" <= q && SelectorValue(q, metric, key) == Some(value)
  {
  }
}
