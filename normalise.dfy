/**
 * The three `formatDataFn` closures of the instance monitor: the CPU and
 * disk-IOPS top-card normalisers, which pick a current value out of the
 * first response, and the CPU trend-chart normaliser, which flattens every
 * response, result and value tuple into chart points.
 */
module Normalise {
  import opened Wrappers
  import opened Prometheus

  // ---------------------------------------------------------------------
  // Top cards
  // ---------------------------------------------------------------------

  /** `responses[0].data?.result || []`, and nothing at all for absent or empty `responses`. */
  function FirstResults(responses: Option<seq<Response>>): seq<Sample> {
    if responses.None? || |responses.value| == 0 then []
    else match responses.value[0].data
      case None => []
      case Some(d) => d.result.GetOr([])
  }

  /** A cell used as a number without `parseFloat`, read as the number it denotes. */
  function CellNumber(nums: Numerics, c: Cell): Num {
    ParseFloat(nums, Some(c))
  }

  /**
   * One CPU top-card point: `x = value?.[0] || 0`,
   * `y = (parseFloat(value?.[1]) || 0) * 100`.
   */
  function CpuCardPoint(nums: Numerics, s: Sample): (p: Point)
    ensures p.y.Fin? && p.x != Undefined
    ensures s.value.None? ==> p == Point(Fin(0.0), Fin(0.0))
    ensures s.value.Some? && |s.value.value| > 0 && s.value.value[0] != "" ==> p.x == CellNumber(nums, s.value.value[0])
    ensures s.value.Some? && (|s.value.value| == 0 || s.value.value[0] == "") ==> p.x == Fin(0.0)
    ensures s.value.Some? && |s.value.value| >= 2 && nums.parse(s.value.value[1]).Some? ==>
      p.y == Fin(nums.parse(s.value.value[1]).value * 100.0)
    ensures s.value.Some? && (|s.value.value| < 2 || nums.parse(s.value.value[1]).None?) ==> p.y == Fin(0.0)
  {
    var x :=
      if s.value.None? || |s.value.value| == 0 || s.value.value[0] == "" then Fin(0.0)
      else CellNumber(nums, s.value.value[0]);
    var second := if s.value.Some? && |s.value.value| >= 2 then Some(s.value.value[1]) else None;
    var n := ParseFloat(nums, second);
    Point(x, Fin(if n.Fin? then n.r * 100.0 else 0.0))
  }

  /** The CPU top-card normaliser: one point per result of the first response. */
  function TopCpu(nums: Numerics, responses: Option<seq<Response>>): (r: seq<Point>)
    ensures |r| == |FirstResults(responses)|
    ensures forall k :: 0 <= k < |r| ==> r[k] == CpuCardPoint(nums, FirstResults(responses)[k])
    ensures forall k :: 0 <= k < |r| ==> r[k].y.Fin?
  {
    var results := FirstResults(responses);
    seq(|results|, k requires 0 <= k < |results| => CpuCardPoint(nums, results[k]))
  }

  /**
   * Absent or empty responses, or a first response without results, give no
   * points; responses after the first are never read.
   */
  lemma TopCpuFirstResponseOnly(nums: Numerics, first: Response, later: seq<Response>)
    ensures TopCpu(nums, Some([first] + later)) == TopCpu(nums, Some([first]))
    ensures TopCpu(nums, None) == [] && TopCpu(nums, Some([])) == []
    ensures first.data.None? || first.data.value.result.GetOr([]) == [] ==> TopCpu(nums, Some([first] + later)) == []
  {
  }

  /**
   * The disk-IOPS top-card normaliser: `latest = results[0].value || [0, 0]`,
   * one point `{x: latest[0], y: parseFloat(latest[1])}`.
   */
  function TopIops(nums: Numerics, responses: Option<seq<Response>>): (r: seq<Point>)
    ensures |r| <= 1
    ensures r == [] <==> FirstResults(responses) == []
    ensures r != [] && FirstResults(responses)[0].value.None? ==> r == [Point(Fin(0.0), Fin(0.0))]
    ensures r != [] && FirstResults(responses)[0].value.Some? ==>
      var t := FirstResults(responses)[0].value.value;
      r[0].y == ParseFloat(nums, if |t| >= 2 then Some(t[1]) else None) &&
      (r[0].x == Undefined <==> t == [])
    ensures r != [] && FirstResults(responses)[0].value.Some? && |FirstResults(responses)[0].value.value| > 0 ==>
      r[0].x == CellNumber(nums, FirstResults(responses)[0].value.value[0])
  {
    var results := FirstResults(responses);
    if |results| == 0 then []
    else
      match results[0].value
      case None => [Point(Fin(0.0), Fin(0.0))]
      case Some(t) =>
        var x := if |t| == 0 then Undefined else CellNumber(nums, t[0]);
        [Point(x, ParseFloat(nums, if |t| >= 2 then Some(t[1]) else None))]
  }

  /** The IOPS card reads only the first result of the first response. */
  lemma TopIopsFirstResultOnly(nums: Numerics, s: Sample, more: seq<Sample>, later: seq<Response>)
    ensures var first := Response(Some(Data(Some([s] + more))));
      TopIops(nums, Some([first] + later)) == TopIops(nums, Some([Response(Some(Data(Some([s]))))]))
  {
  }

  // ---------------------------------------------------------------------
  // Trend chart
  // ---------------------------------------------------------------------

  /**
   * The tuples a result offers: all of `values` for a range result, else the
   * single (possibly absent) `value`, i.e. `result.values || [result.value]`.
   */
  function Slots(s: Sample): seq<Option<Tuple>> {
    match s.values
    case Some(vs) => vs
    case None => [s.value]
  }

  /** The slots of a list of results, result by result. */
  function ResultSlots(results: seq<Sample>): seq<Option<Tuple>> {
    if |results| == 0 then [] else ResultSlots(results[..|results| - 1]) + Slots(results[|results| - 1])
  }

  /** The slots of one response; nothing when `data` or `data.result` is absent. */
  function ResponseSlots(r: Response): seq<Option<Tuple>> {
    if r.data.None? || r.data.value.result.None? then [] else ResultSlots(r.data.value.result.value)
  }

  /** Every slot of every response, in response, result, tuple order. */
  function AllSlots(rs: seq<Response>): seq<Option<Tuple>> {
    if |rs| == 0 then [] else AllSlots(rs[..|rs| - 1]) + ResponseSlots(rs[|rs| - 1])
  }

  /** A slot that yields a point: present and with at least two cells. */
  predicate Usable(slot: Option<Tuple>) {
    slot.Some? && |slot.value| >= 2
  }

  /** `{x: parseFloat(v[0]), y: parseFloat((parseFloat(v[1]) * 100).toFixed(2))}`. */
  function TrendPoint(nums: Numerics, t: Tuple): (p: Point)
    requires |t| >= 2
    ensures p.x == ParseFloat(nums, Some(t[0]))
    ensures p.y.Fin? <==> nums.parse(t[1]).Some?
    ensures nums.parse(t[1]).Some? ==> p.y == Fin(nums.round2(nums.parse(t[1]).value * 100.0))
    ensures nums.parse(t[1]).None? ==> p.y == NaN
  {
    var v := ParseFloat(nums, Some(t[1]));
    Point(ParseFloat(nums, Some(t[0])), if v.Fin? then Fin(nums.round2(v.r * 100.0)) else NaN)
  }

  /** The points of a slot sequence: usable slots become points, the rest are skipped. */
  function Points(nums: Numerics, slots: seq<Option<Tuple>>): seq<Point> {
    if |slots| == 0 then []
    else
      var last := slots[|slots| - 1];
      Points(nums, slots[..|slots| - 1]) + (if Usable(last) then [TrendPoint(nums, last.value)] else [])
  }

  /** The positions of the usable slots, in increasing order. */
  function UsableIndices(slots: seq<Option<Tuple>>): seq<nat> {
    if |slots| == 0 then []
    else UsableIndices(slots[..|slots| - 1]) + (if Usable(slots[|slots| - 1]) then [|slots| - 1] else [])
  }

  /**
   * The positions of the usable slots: each names a usable slot, they
   * increase strictly, and every usable slot is named.
   */
  lemma {:induction false} UsableIndicesSpec(slots: seq<Option<Tuple>>)
    ensures forall k :: 0 <= k < |UsableIndices(slots)| ==>
      UsableIndices(slots)[k] < |slots| && Usable(slots[UsableIndices(slots)[k]])
    ensures forall k, l :: 0 <= k < l < |UsableIndices(slots)| ==> UsableIndices(slots)[k] < UsableIndices(slots)[l]
    ensures forall i :: 0 <= i < |slots| && Usable(slots[i]) ==> i in UsableIndices(slots)
  {
    if |slots| > 0 {
      var n := |slots| - 1;
      var init := slots[..n];
      UsableIndicesSpec(init);
      var u, ui := UsableIndices(slots), UsableIndices(init);
      assert u == ui + (if Usable(slots[n]) then [n] else []);
      forall k | 0 <= k < |ui|
        ensures u[k] == ui[k] && ui[k] < n && slots[ui[k]] == init[ui[k]]
      {
      }
      forall i | 0 <= i < |slots| && Usable(slots[i])
        ensures i in u
      {
        if i < n {
          assert init[i] == slots[i];
          assert i in ui;
        } else {
          assert u[|ui|] == i;
        }
      }
    }
  }

  /**
   * Exactly one point per usable slot, in slot order: the k-th point is made
   * from the k-th usable slot, and unusable slots (missing or shorter than
   * two cells) are skipped without affecting the rest.
   */
  lemma {:induction false} PointsOfUsableSlots(nums: Numerics, slots: seq<Option<Tuple>>)
    ensures |Points(nums, slots)| == |UsableIndices(slots)|
    ensures forall k :: 0 <= k < |UsableIndices(slots)| ==>
      UsableIndices(slots)[k] < |slots| && Usable(slots[UsableIndices(slots)[k]]) &&
      Points(nums, slots)[k] == TrendPoint(nums, slots[UsableIndices(slots)[k]].value)
  {
    if |slots| > 0 {
      var n := |slots| - 1;
      var init := slots[..n];
      PointsOfUsableSlots(nums, init);
      var p, pi := Points(nums, slots), Points(nums, init);
      var u, ui := UsableIndices(slots), UsableIndices(init);
      assert p == pi + (if Usable(slots[n]) then [TrendPoint(nums, slots[n].value)] else []);
      assert u == ui + (if Usable(slots[n]) then [n] else []);
      forall k | 0 <= k < |u|
        ensures u[k] < |slots| && Usable(slots[u[k]]) && p[k] == TrendPoint(nums, slots[u[k]].value)
      {
        if k < |ui| {
          assert u[k] == ui[k] && p[k] == pi[k];
          assert slots[ui[k]] == init[ui[k]];
        }
      }
    }
  }

  /** Splitting the slots splits the points. */
  lemma {:induction false} PointsConcat(nums: Numerics, a: seq<Option<Tuple>>, b: seq<Option<Tuple>>)
    ensures Points(nums, a + b) == Points(nums, a) + Points(nums, b)
  {
    if |b| > 0 {
      var n := |b| - 1;
      assert (a + b)[..|a + b| - 1] == a + b[..n];
      assert (a + b)[|a + b| - 1] == b[n];
      PointsConcat(nums, a, b[..n]);
    } else {
      assert a + b == a;
    }
  }

  /** Splitting the responses splits the slots. */
  lemma {:induction false} AllSlotsConcat(rs: seq<Response>, qs: seq<Response>)
    ensures AllSlots(rs + qs) == AllSlots(rs) + AllSlots(qs)
  {
    if |qs| > 0 {
      var n := |qs| - 1;
      assert (rs + qs)[..|rs + qs| - 1] == rs + qs[..n];
      assert (rs + qs)[|rs + qs| - 1] == qs[n];
      AllSlotsConcat(rs, qs[..n]);
      var tail := ResponseSlots(qs[n]);
      assert AllSlots(rs + qs) == AllSlots(rs + qs[..n]) + tail;
      assert AllSlots(qs) == AllSlots(qs[..n]) + tail;
    } else {
      assert rs + qs == rs;
    }
  }

  /** The points drawn from real responses. */
  function Observed(nums: Numerics, rs: seq<Response>): seq<Point> {
    Points(nums, AllSlots(rs))
  }

  /** Points of earlier responses all come before those of later responses. */
  lemma ObservedConcat(nums: Numerics, rs: seq<Response>, qs: seq<Response>)
    ensures Observed(nums, rs + qs) == Observed(nums, rs) + Observed(nums, qs)
  {
    AllSlotsConcat(rs, qs);
    PointsConcat(nums, AllSlots(rs), AllSlots(qs));
  }

  /** A response without `data.result` contributes nothing, wherever it stands. */
  lemma SilentResponse(nums: Numerics, rs: seq<Response>, r: Response, qs: seq<Response>)
    requires r.data.None? || r.data.value.result.None?
    ensures Observed(nums, rs + [r] + qs) == Observed(nums, rs + qs)
  {
    calc {
      AllSlots(rs + [r] + qs);
      == { AllSlotsConcat(rs + [r], qs); }
      AllSlots(rs + [r]) + AllSlots(qs);
      == { AllSlotsConcat(rs, [r]); SilentAlone(r); }
      AllSlots(rs) + AllSlots(qs);
      == { AllSlotsConcat(rs, qs); }
      AllSlots(rs + qs);
    }
  }

  /** The slots of a lone response without `data.result`. */
  lemma SilentAlone(r: Response)
    requires r.data.None? || r.data.value.result.None?
    ensures AllSlots([r]) == []
  {
  }

  /**
   * A range result contributes all of its tuples; an instant result (no
   * `values`) contributes at most one point, and none when `value` is absent.
   */
  lemma SampleContribution(nums: Numerics, s: Sample)
    ensures s.values.Some? ==> Points(nums, Slots(s)) == Points(nums, s.values.value)
    ensures s.values.None? ==> |Points(nums, Slots(s))| <= 1
    ensures s.values.None? && s.value.None? ==> Points(nums, Slots(s)) == []
    ensures s.values.None? && Usable(s.value) ==> Points(nums, Slots(s)) == [TrendPoint(nums, s.value.value)]
  {
  }

  /** The k-th point of the synthetic fallback, pushed when the loop index is 60 - k. */
  function SyntheticPoint(nums: Numerics, now: real, random: nat -> real, k: nat): Point {
    Point(Fin(now - ((60 - k) * 60) as real), Fin(nums.round2(30.0 + random(k) * 40.0)))
  }

  /**
   * The fallback series for absent or empty responses: 61 points one minute
   * apart ending at `now`; `random(k)` is the k-th draw of `Math.random()`.
   */
  function Synthetic(nums: Numerics, now: real, random: nat -> real): (r: seq<Point>)
    ensures |r| == 61
    ensures r[60].x == Fin(now)
    ensures forall j, k :: 0 <= j < k < 61 ==> r[j].x.Fin? && r[k].x.Fin? && r[k].x.r - r[j].x.r == (k - j) as real * 60.0
  {
    seq(61, k requires 0 <= k < 61 => SyntheticPoint(nums, now, random, k))
  }

  /** What the trend normaliser returns. */
  function Trend(nums: Numerics, responses: Option<seq<Response>>, now: real, random: nat -> real): seq<Point> {
    if responses.None? || |responses.value| == 0 then Synthetic(nums, now, random)
    else Observed(nums, responses.value)
  }

  /** The fallback loop `for (let i = 60; i >= 0; i--)` of the trend normaliser. */
  method FallbackPoints(nums: Numerics, now: real, random: nat -> real) returns (ret: seq<Point>)
    ensures ret == Synthetic(nums, now, random)
  {
    ret := [];
    var i := 60;
    while i >= 0
      invariant -1 <= i <= 60
      invariant ret == Synthetic(nums, now, random)[..60 - i]
    {
      ret := ret + [SyntheticPoint(nums, now, random, 60 - i)];
      i := i - 1;
    }
  }

  /** The innermost `values.forEach`: push a point for each usable tuple. */
  method PushTuples(nums: Numerics, ret: seq<Point>, values: seq<Option<Tuple>>) returns (out: seq<Point>)
    ensures out == ret + Points(nums, values)
  {
    out := ret;
    var c := 0;
    while c < |values|
      invariant 0 <= c <= |values|
      invariant out == ret + Points(nums, values[..c])
    {
      var value := values[c];
      assert values[..c + 1][..c] == values[..c];
      if value.Some? && |value.value| >= 2 {
        out := out + [TrendPoint(nums, value.value)];
      }
      c := c + 1;
    }
    assert values[..c] == values;
  }

  /** The `data.result.forEach` of one response: each result's tuples in turn. */
  method PushResults(nums: Numerics, ret: seq<Point>, results: seq<Sample>) returns (out: seq<Point>)
    ensures out == ret + Points(nums, ResultSlots(results))
  {
    out := ret;
    var b := 0;
    while b < |results|
      invariant 0 <= b <= |results|
      invariant out == ret + Points(nums, ResultSlots(results[..b]))
    {
      var values := Slots(results[b]);
      ghost var before := ResultSlots(results[..b]);
      assert ResultSlots(results[..b + 1]) == before + values by {
        assert results[..b + 1][..b] == results[..b];
      }
      PointsConcat(nums, before, values);
      out := PushTuples(nums, out, values);
      b := b + 1;
    }
    assert results[..b] == results;
  }

  /**
   * The CPU trend-chart normaliser, step by step as the source does it: the
   * fallback loop for absent or empty responses, otherwise a loop over the
   * responses that skips those without `data.result` and pushes the points
   * of the others.
   */
  method FormatTrend(nums: Numerics, responses: Option<seq<Response>>, now: real, random: nat -> real)
    returns (ret: seq<Point>)
    ensures ret == Trend(nums, responses, now, random)
  {
    if responses.None? || |responses.value| == 0 {
      ret := FallbackPoints(nums, now, random);
      return;
    }
    ret := [];
    var rs := responses.value;
    var a := 0;
    while a < |rs|
      invariant 0 <= a <= |rs|
      invariant ret == Points(nums, AllSlots(rs[..a]))
    {
      ghost var before := AllSlots(rs[..a]);
      assert AllSlots(rs[..a + 1]) == before + ResponseSlots(rs[a]) by {
        assert rs[..a + 1][..a] == rs[..a];
      }
      PointsConcat(nums, before, ResponseSlots(rs[a]));
      var data := rs[a].data;
      if data.Some? && data.value.result.Some? {
        ret := PushResults(nums, ret, data.value.result.value);
      }
      a := a + 1;
    }
    assert rs[..a] == rs;
  }
}
