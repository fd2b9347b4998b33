/**
 * The card configuration builders `getTopCardList`, `getChartCardList` and
 * `getChartConfig`: fixed lists of card specifications, each naming a
 * catalog metric key, the `{domain}` query parameters, the series rename
 * keys, the device label key and the response normaliser it uses.
 */
module Cards {
  import opened Wrappers

  /**
   * The normaliser a card hands its responses to: one of the three
   * `formatDataFn` closures, or the chart component's own default handling.
   */
  datatype Formatter = DefaultHandling | TopCpuFormat | TopIopsFormat | TrendCpuFormat

  /**
   * One card: its title key, `createFetchParams.metricKey` and `.params`, and
   * `handleDataParams.modifyKeys`, `.deviceKey` and `.formatDataFn`.
   */
  datatype CardSpec = CardSpec(
    title: string,
    metricKey: string,
    params: map<string, string>,
    modifyKeys: seq<string>,
    deviceKey: Option<string>,
    formatter: Formatter)

  /** The object `getChartConfig` returns. */
  datatype ChartConfig = ChartConfig(chartCardList: seq<CardSpec>, topCardList: seq<CardSpec>)

  function MetricKeys(cards: seq<CardSpec>): (keys: seq<string>)
    ensures |keys| == |cards|
    ensures forall i :: 0 <= i < |cards| ==> keys[i] == cards[i].metricKey
  {
    seq(|cards|, i requires 0 <= i < |cards| => cards[i].metricKey)
  }

  /** Every card queries with exactly `{domain}`. */
  predicate DomainParams(cards: seq<CardSpec>, domain: string) {
    forall i :: 0 <= i < |cards| ==> cards[i].params == map["domain" := domain]
  }

  /** The three summary cards: CPU usage, memory usage and disk IOPS. */
  function TopCardList(instanceId: string, domain: string): (cards: seq<CardSpec>)
    ensures MetricKeys(cards) == ["instanceMonitor.cpu", "instanceMonitor.memUsage", "instanceMonitor.disk_iops"]
    ensures DomainParams(cards, domain)
    ensures forall i :: 0 <= i < |cards| ==> cards[i].deviceKey == None && cards[i].modifyKeys == []
    ensures cards[0].formatter == TopCpuFormat && cards[1].formatter == DefaultHandling && cards[2].formatter == TopIopsFormat
  {
    [ CardSpec("CPU Usage(%)", "instanceMonitor.cpu", map["domain" := domain], [], None, TopCpuFormat),
      CardSpec("Memory Usage", "instanceMonitor.memUsage", map["domain" := domain], [], None, DefaultHandling),
      CardSpec("DISK IOPS", "instanceMonitor.disk_iops", map["domain" := domain], [], None, TopIopsFormat) ]
  }

  /** The four trend charts: CPU, memory, network traffic and disk read/write. */
  function ChartCardList(instanceId: string, domain: string): (cards: seq<CardSpec>)
    ensures MetricKeys(cards) == ["instanceMonitor.cpu", "instanceMonitor.memory", "instanceMonitor.network", "instanceMonitor.disk"]
    ensures DomainParams(cards, domain)
    ensures forall i :: 0 <= i < |cards| ==>
      (cards[i].deviceKey == Some("target_device") <==> cards[i].metricKey in {"instanceMonitor.network", "instanceMonitor.disk"})
    ensures forall i :: 0 <= i < |cards| ==> cards[i].deviceKey.Some? ==> cards[i].deviceKey == Some("target_device")
    ensures forall i :: 0 <= i < |cards| ==> (cards[i].formatter == TrendCpuFormat <==> i == 0)
    ensures forall i :: 0 < i < |cards| ==> cards[i].formatter == DefaultHandling
    ensures cards[0].modifyKeys == [] && cards[1].modifyKeys == ["Used", "Free"]
    ensures cards[2].modifyKeys == ["receive", "transmit"] && cards[3].modifyKeys == ["read", "write"]
  {
    [ CardSpec("CPU Usage(%)", "instanceMonitor.cpu", map["domain" := domain], [], None, TrendCpuFormat),
      CardSpec("Memory Usage", "instanceMonitor.memory", map["domain" := domain], ["Used", "Free"], None, DefaultHandling),
      CardSpec("Network Traffic", "instanceMonitor.network", map["domain" := domain], ["receive", "transmit"],
               Some("target_device"), DefaultHandling),
      CardSpec("DISK Read/Write", "instanceMonitor.disk", map["domain" := domain], ["read", "write"],
               Some("target_device"), DefaultHandling) ]
  }

  /** `getChartConfig`: both lists for one instance and domain. */
  function GetChartConfig(instanceId: string, domain: string): (c: ChartConfig)
    ensures |c.chartCardList| == 4 && |c.topCardList| == 3
    ensures MetricKeys(c.chartCardList) ==
      ["instanceMonitor.cpu", "instanceMonitor.memory", "instanceMonitor.network", "instanceMonitor.disk"]
    ensures MetricKeys(c.topCardList) == ["instanceMonitor.cpu", "instanceMonitor.memUsage", "instanceMonitor.disk_iops"]
    ensures forall i :: 0 <= i < |c.chartCardList| ==> (c.chartCardList[i].formatter == TrendCpuFormat <==> i == 0)
    ensures forall i :: 0 < i < |c.chartCardList| ==> c.chartCardList[i].formatter == DefaultHandling
    ensures forall i :: 0 <= i < |c.chartCardList| ==>
      (c.chartCardList[i].deviceKey == Some("target_device") <==>
       c.chartCardList[i].metricKey in {"instanceMonitor.network", "instanceMonitor.disk"})
    ensures forall i :: 0 <= i < |c.chartCardList| ==>
      c.chartCardList[i].deviceKey.Some? ==> c.chartCardList[i].deviceKey == Some("target_device")
    ensures c.chartCardList[0].modifyKeys == [] && c.chartCardList[1].modifyKeys == ["Used", "Free"]
    ensures c.chartCardList[2].modifyKeys == ["receive", "transmit"] && c.chartCardList[3].modifyKeys == ["read", "write"]
    ensures forall i :: 0 <= i < |c.topCardList| ==> c.topCardList[i].deviceKey == None && c.topCardList[i].modifyKeys == []
    ensures c.topCardList[0].formatter == TopCpuFormat && c.topCardList[1].formatter == DefaultHandling
    ensures c.topCardList[2].formatter == TopIopsFormat
    ensures DomainParams(c.chartCardList, domain) && DomainParams(c.topCardList, domain)
  {
    ChartConfig(ChartCardList(instanceId, domain), TopCardList(instanceId, domain))
  }

  /**
   * The configuration depends on the domain only: the instance id never
   * reaches it, so two instances sharing a domain get equal configurations,
   * and two different domains always give different ones.
   */
  lemma ConfigDependsOnDomainOnly(id1: string, id2: string, d1: string, d2: string)
    ensures GetChartConfig(id1, d1) == GetChartConfig(id2, d1)
    ensures GetChartConfig(id1, d1) == GetChartConfig(id2, d2) <==> d1 == d2
  {
    if GetChartConfig(id1, d1) == GetChartConfig(id2, d2) {
      assert GetChartConfig(id1, d1).topCardList[0].params["domain"] == d1;
      assert GetChartConfig(id2, d2).topCardList[0].params["domain"] == d2;
    }
  }
}
