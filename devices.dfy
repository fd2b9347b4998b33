/**
 * Device discovery and the disk-device filter of `InstanceMonitorBase`: the
 * distinct `device` labels of a domain's block-device metric, the selected
 * device, and the filter node handed to the charts.
 */
module Devices {
  import opened Wrappers
  import opened Prometheus

  predicate NoDuplicates<T(==,!new)>(s: seq<T>) {
    forall i, j :: 0 <= i < j < |s| ==> s[i] != s[j]
  }

  /** `Array.from(new Set(s))`: each value once, at its first occurrence. */
  function Dedup<T(==,!new)>(s: seq<T>): (r: seq<T>)
    ensures forall x :: x in r <==> x in s
    ensures NoDuplicates(r)
  {
    if |s| == 0 then []
    else
      var d := Dedup(s[..|s| - 1]);
      var x := s[|s| - 1];
      if x in d then d else d + [x]
  }

  /** The position of the first occurrence of `x` in `s`. */
  function FirstIndex<T(==,!new)>(s: seq<T>, x: T): (i: nat)
    requires x in s
    ensures i < |s| && s[i] == x
    ensures forall j :: 0 <= j < i ==> s[j] != x
  {
    if s[0] == x then 0 else 1 + FirstIndex(s[1..], x)
  }

  /** `Dedup` keeps first-occurrence order. */
  lemma {:induction false} DedupOrder<T(!new)>(s: seq<T>)
    ensures forall i, j :: 0 <= i < j < |Dedup(s)| ==> FirstIndex(s, Dedup(s)[i]) < FirstIndex(s, Dedup(s)[j])
  {
    if |s| > 0 {
      var n := |s| - 1;
      var init := s[..n];
      var d := Dedup(init);
      DedupOrder(init);
      forall y | y in init
        ensures FirstIndex(s, y) == FirstIndex(init, y)
      {
        var a, b := FirstIndex(s, y), FirstIndex(init, y);
        assert s[b] == y;
      }
      if s[n] !in d {
        assert s[n] !in init;
        assert FirstIndex(s, s[n]) == n;
      }
    }
  }

  /** `.filter(Boolean)` over label values: drops absent and empty labels. */
  function Truthy(xs: seq<Option<string>>): (r: seq<string>)
    ensures forall d :: d in r <==> Some(d) in xs && d != ""
    ensures NoDuplicates(xs) ==> NoDuplicates(r)
  {
    if |xs| == 0 then []
    else
      var t := Truthy(xs[..|xs| - 1]);
      var x := xs[|xs| - 1];
      if x.Some? && x.value != "" then t + [x.value] else t
  }

  /** The positions `Truthy` keeps. */
  function TruthyIndices(xs: seq<Option<string>>): seq<nat> {
    if |xs| == 0 then []
    else
      var x := xs[|xs| - 1];
      TruthyIndices(xs[..|xs| - 1]) + (if x.Some? && x.value != "" then [|xs| - 1] else [])
  }

  /** `Truthy` keeps its survivors in their original order. */
  lemma {:induction false} TruthyPositions(xs: seq<Option<string>>)
    ensures |TruthyIndices(xs)| == |Truthy(xs)|
    ensures forall k :: 0 <= k < |Truthy(xs)| ==>
      TruthyIndices(xs)[k] < |xs| && xs[TruthyIndices(xs)[k]] == Some(Truthy(xs)[k])
    ensures forall k, l :: 0 <= k < l < |TruthyIndices(xs)| ==> TruthyIndices(xs)[k] < TruthyIndices(xs)[l]
  {
    if |xs| > 0 {
      var n := |xs| - 1;
      var init := xs[..n];
      TruthyPositions(init);
      assert forall i :: 0 <= i < n ==> init[i] == xs[i];
    }
  }

  /** Every result carries a label set, so reading `item.metric.device` cannot throw. */
  predicate AllLabelled(results: seq<Sample>) {
    forall i :: 0 <= i < |results| ==> results[i].metric.Some?
  }

  /** `item.metric.device` of one result. */
  function DeviceLabel(s: Sample): Option<string>
    requires s.metric.Some?
  {
    if "device" in s.metric.value then Some(s.metric.value["device"]) else None
  }

  /** The `device` labels of a result list, one per result. */
  function Labels(results: seq<Sample>): (ls: seq<Option<string>>)
    requires AllLabelled(results)
    ensures |ls| == |results|
    ensures forall i :: 0 <= i < |results| ==> ls[i] == DeviceLabel(results[i])
  {
    seq(|results|, i requires 0 <= i < |results| => DeviceLabel(results[i]))
  }

  /** The device list: `Array.from(new Set(labels)).filter(Boolean)`. */
  function DeviceList(results: seq<Sample>): seq<string>
    requires AllLabelled(results)
  {
    Truthy(Dedup(Labels(results)))
  }

  /**
   * The device list has no duplicates and no empty labels, holds every
   * non-empty `device` label of the results and nothing else, and lists them
   * in the order of their first occurrence.
   */
  lemma DeviceListSpec(results: seq<Sample>)
    requires AllLabelled(results)
    ensures NoDuplicates(DeviceList(results))
    ensures forall d :: d in DeviceList(results) <==> d != "" && Some(d) in Labels(results)
    ensures forall i :: 0 <= i < |results| && DeviceLabel(results[i]).Some? && DeviceLabel(results[i]).value != "" ==>
      DeviceLabel(results[i]).value in DeviceList(results)
    ensures forall i, j :: 0 <= i < j < |DeviceList(results)| ==>
      FirstIndex(Labels(results), Some(DeviceList(results)[i])) < FirstIndex(Labels(results), Some(DeviceList(results)[j]))
  {
    var ls := Labels(results);
    var d := Dedup(ls);
    var r := Truthy(d);
    DedupOrder(ls);
    TruthyPositions(d);
    var idx := TruthyIndices(d);
    forall i | 0 <= i < |results| && DeviceLabel(results[i]).Some? && DeviceLabel(results[i]).value != ""
      ensures DeviceLabel(results[i]).value in r
    {
      assert ls[i] == DeviceLabel(results[i]);
      assert Some(DeviceLabel(results[i]).value) in ls;
    }
    forall i, j | 0 <= i < j < |r|
      ensures FirstIndex(ls, Some(r[i])) < FirstIndex(ls, Some(r[j]))
    {
      assert d[idx[i]] == Some(r[i]) && d[idx[j]] == Some(r[j]);
    }
  }

  /** The device-discovery query: the domain's block-device read counters. */
  function DevicesQuery(domain: string): (q: Query)
    ensures q.mode == Current && q.params == map[]
    ensures q.expr.Some? && SelectorValue(q.expr.value, "libvirt_domain_block_stats_read_bytes_total", "domain") == Some(domain)
  {
    SelectorRoundTrip("libvirt_domain_block_stats_read_bytes_total", "domain", domain);
    Query(Some(Selector("libvirt_domain_block_stats_read_bytes_total", "domain", domain)), Current, map[])
  }

  /**
   * The chart filter node's `metric`: always the domain, and the selected
   * device exactly when one other than "all" is chosen.
   */
  function FilterNode(domain: string, selectedDevice: string): (m: map<string, string>)
    ensures "domain" in m && m["domain"] == domain
    ensures "device" in m <==> selectedDevice != "all"
    ensures "device" in m ==> m["device"] == selectedDevice
    ensures m.Keys <= {"domain", "device"}
  {
    if selectedDevice != "all" then map["domain" := domain, "device" := selectedDevice]
    else map["domain" := domain]
  }

  /** The function component `InstanceMonitorBase` and its three pieces of state. */
  class InstanceMonitorBase {
    const instanceId: string
    /** The `hostname` prop: the resolved domain. */
    const domain: string
    var devices: seq<string>
    var selectedDevice: string
    var isLoadingDevices: bool

    constructor(instanceId: string, hostname: string)
      ensures this.instanceId == instanceId && domain == hostname
      ensures devices == [] && selectedDevice == "all" && !isLoadingDevices
    {
      this.instanceId := instanceId;
      domain := hostname;
      devices := [];
      selectedDevice := "all";
      isLoadingDevices := false;
    }

    /**
     * `fetchDevices`: query the device labels; replace `devices` only when
     * the fetch resolves with a `data.result` whose labels can all be read,
     * keep them when it throws, and end with `isLoadingDevices` false in
     * every case.
     */
    method FetchDevices(backend: Query -> Outcome) returns (q: Query)
      modifies this`devices, this`isLoadingDevices
      ensures q == DevicesQuery(domain)
      ensures !isLoadingDevices
      ensures devices ==
        match backend(q)
        case Ok(Response(Some(Data(Some(results))))) =>
          if AllLabelled(results) then DeviceList(results) else old(devices)
        case _ => old(devices)
    {
      isLoadingDevices := true;
      q := DevicesQuery(domain);
      var outcome := backend(q);
      if outcome.Ok? && outcome.response.data.Some? && outcome.response.data.value.result.Some? {
        var results := outcome.response.data.value.result.value;
        if AllLabelled(results) {
          devices := DeviceList(results);
        }
      }
      isLoadingDevices := false;
    }

    /**
     * The effect React runs after mounting and after each change of the
     * domain: discover devices when there is a domain.
     */
    method DomainEffect(backend: Query -> Outcome) returns (issued: seq<Query>)
      modifies this`devices, this`isLoadingDevices
      ensures domain == "" ==> issued == [] && devices == old(devices) && isLoadingDevices == old(isLoadingDevices)
      ensures domain != "" ==> issued == [DevicesQuery(domain)] && !isLoadingDevices
      ensures domain != "" ==> (devices ==
        match backend(DevicesQuery(domain))
        case Ok(Response(Some(Data(Some(results))))) =>
          if AllLabelled(results) then DeviceList(results) else old(devices)
        case _ => old(devices))
    {
      issued := [];
      if domain != "" {
        var q := FetchDevices(backend);
        issued := [q];
      }
    }

    /** `handleDeviceChange`. */
    method HandleDeviceChange(value: string)
      modifies this`selectedDevice
      ensures selectedDevice == value
    {
      selectedDevice := value;
    }

    /** The `defaultNode.metric` for the current selection. */
    function DefaultNode(): (m: map<string, string>)
      reads this
      ensures "domain" in m && m["domain"] == domain
      ensures "device" in m <==> selectedDevice != "all"
      ensures "device" in m ==> m["device"] == selectedDevice
      ensures m.Keys <= {"domain", "device"}
    {
      FilterNode(domain, selectedDevice)
    }
  }
}
