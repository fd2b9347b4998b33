/**
 * The lifecycle controller `InstanceMonitorWrapper`: it resolves the
 * instance id from its props, probes the metrics backend, looks up the
 * libvirt domain of the instance (falling back to the instance id), and
 * chooses between the loading, error and content views.
 */
module Lifecycle {
  import opened Wrappers
  import opened Prometheus

  /** The router's `match` prop; its `params` may be absent. */
  datatype RouteMatch = RouteMatch(params: Option<map<string, string>>)

  /** The props the controller reads; `instanceDetail` is compared by reference. */
  datatype Props = Props(instanceId: Option<string>, route: Option<RouteMatch>, instanceDetail: Option<object>)

  /** `match && match.params && match.params.id`. */
  function RouteId(p: Props): Option<string> {
    if p.route.Some? && p.route.value.params.Some? && "id" in p.route.value.params.value
    then Some(p.route.value.params.value["id"])
    else None
  }

  /** Whether a JavaScript string is truthy. */
  predicate NonEmpty(s: Option<string>) {
    s.Some? && s.value != ""
  }

  /**
   * `getInstanceId`: the `instanceId` prop when it is non-empty, else the
   * route's `id` when that is non-empty, else the empty string.
   */
  function InstanceId(p: Props): (id: string)
    ensures NonEmpty(p.instanceId) ==> id == p.instanceId.value
    ensures !NonEmpty(p.instanceId) && NonEmpty(RouteId(p)) ==> id == RouteId(p).value
    ensures id == "" <==> !NonEmpty(p.instanceId) && !NonEmpty(RouteId(p))
  {
    if NonEmpty(p.instanceId) then p.instanceId.value
    else if NonEmpty(RouteId(p)) then RouteId(p).value
    else ""
  }

  /**
   * The test in `componentDidUpdate`: re-initialise iff the resolved id or
   * the `instanceDetail` reference changed.
   */
  function NeedsReinit(prev: Props, cur: Props): (b: bool)
    ensures !b <==> InstanceId(prev) == InstanceId(cur) && prev.instanceDetail == cur.instanceDetail
    ensures prev == cur ==> !b
  {
    InstanceId(cur) != InstanceId(prev) || cur.instanceDetail != prev.instanceDetail
  }

  /**
   * A route change that a non-empty `instanceId` prop shadows does not
   * trigger a re-initialisation, while a change of that prop always does.
   */
  lemma ReinitFollowsResolvedId(prev: Props, cur: Props)
    requires NonEmpty(prev.instanceId) && NonEmpty(cur.instanceId)
    ensures prev.instanceId == cur.instanceId && prev.instanceDetail == cur.instanceDetail ==> !NeedsReinit(prev, cur)
    ensures prev.instanceId != cur.instanceId ==> NeedsReinit(prev, cur)
  {
  }

  const IdRequired := "Instance ID is required for monitoring"
  const Unavailable := "Prometheus service is unavailable or instance metrics not found"
  const DomainLookupFailed := "Failed to get domain from metrics"

  /** The availability probe: the catalog's first CPU query, keyed by instance. */
  function ProbeQuery(catalog: Catalog, instanceId: string): (q: Query)
    ensures q.mode == Current && q.params == map["instance" := instanceId]
    ensures q.expr.Some? <==> "instanceMonitor.cpu" in catalog && |catalog["instanceMonitor.cpu"]| > 0
    ensures q.expr.Some? ==> q.expr.value == catalog["instanceMonitor.cpu"][0]
  {
    Query(CatalogUrl(catalog, "instanceMonitor.cpu"), Current, map["instance" := instanceId])
  }

  /** The catalog's first `openstackinfo` URL, `libvirt_domain_openstack_info` by default. */
  function InfoUrl(catalog: Catalog): (u: string)
    ensures CatalogUrl(catalog, "instanceMonitor.openstackinfo").None? ==> u == "libvirt_domain_openstack_info"
    ensures CatalogUrl(catalog, "instanceMonitor.openstackinfo").Some? ==> u == catalog["instanceMonitor.openstackinfo"][0]
  {
    CatalogUrl(catalog, "instanceMonitor.openstackinfo").GetOr("libvirt_domain_openstack_info")
  }

  /**
   * The domain lookup: `<url>{instance_id="<id>"}` as a current query
   * without parameters; the id can be read back from the selector.
   */
  function LookupQuery(catalog: Catalog, instanceId: string): (q: Query)
    ensures q.mode == Current && q.params == map[]
    ensures q.expr.Some? && InfoUrl(catalog) + "{" <= q.expr.value
    ensures SelectorValue(q.expr.value, InfoUrl(catalog), "instance_id") == Some(instanceId)
  {
    SelectorRoundTrip(InfoUrl(catalog), "instance_id", instanceId);
    Query(Some(Selector(InfoUrl(catalog), "instance_id", instanceId)), Current, map[])
  }

  /**
   * Whether the lookup ends in the `catch`: the fetch throws, destructuring
   * `ret.data` fails because it is absent, or the first result has no
   * label set to read `metric.domain` from.
   */
  predicate LookupThrows(o: Outcome) {
    o.Fail? || o.response.data.None? ||
    (var result := o.response.data.value.result.GetOr([]); |result| > 0 && result[0].metric.None?)
  }

  /**
   * The domain the lookup settles on: the first result's non-empty `domain`
   * label, else the instance id (empty or absent result, missing label,
   * or a throw).
   */
  function LookupDomain(o: Outcome, instanceId: string): (d: string)
    ensures instanceId != "" ==> d != ""
    ensures d != instanceId ==>
      !LookupThrows(o) && o.response.data.value.result.Some? && |o.response.data.value.result.value| > 0 &&
      "domain" in o.response.data.value.result.value[0].metric.value &&
      d == o.response.data.value.result.value[0].metric.value["domain"]
    ensures LookupThrows(o) ==> d == instanceId
    ensures (!LookupThrows(o) && o.response.data.value.result.Some? && |o.response.data.value.result.value| > 0 &&
             "domain" in o.response.data.value.result.value[0].metric.value &&
             o.response.data.value.result.value[0].metric.value["domain"] != "") ==>
      d == o.response.data.value.result.value[0].metric.value["domain"]
    ensures !LookupThrows(o) && o.response.data.value.result.GetOr([]) == [] ==> d == instanceId
    ensures (!LookupThrows(o) && o.response.data.value.result.GetOr([]) != [] &&
             (var m := o.response.data.value.result.value[0].metric.value; "domain" !in m || m["domain"] == "")) ==>
      d == instanceId
  {
    if LookupThrows(o) then instanceId
    else
      var result := o.response.data.value.result.GetOr([]);
      if |result| > 0 && "domain" in result[0].metric.value && result[0].metric.value["domain"] != ""
      then result[0].metric.value["domain"]
      else instanceId
  }

  /** The props of the embedded `InstanceMonitorBase`. */
  datatype BaseProps = BaseProps(instanceId: string, hostname: string)

  /** What `render` shows. */
  datatype View = Spinner | Alert(description: string) | Content(base: Option<BaseProps>)

  /** The class component `InstanceMonitorWrapper`. */
  class InstanceMonitorWrapper {
    /** The current props; an update is seen with the previous props passed in. */
    const props: Props
    /** The metric catalog the queries are taken from. */
    const catalog: Catalog
    var isLoading: bool
    var error: string
    var domain: string
    var hasPrometheus: bool

    constructor(props: Props, catalog: Catalog)
      ensures this.props == props && this.catalog == catalog
      ensures isLoading && error == "" && domain == "" && hasPrometheus
    {
      this.props := props;
      this.catalog := catalog;
      isLoading := true;
      error := "";
      domain := "";
      hasPrometheus := true;
    }

    /** `render`: loading wins over an error, an error over the content. */
    function Render(): (v: View)
      reads this
      ensures v == Spinner <==> isLoading
      ensures v.Alert? <==> !isLoading && error != ""
      ensures v.Alert? ==> v.description == error
      ensures v.Content? ==> error == "" && (v.base.Some? <==> hasPrometheus)
      ensures v.Content? && v.base.Some? ==> v.base.value == BaseProps(InstanceId(props), domain)
    {
      if isLoading then Spinner
      else if error != "" then Alert(error)
      else Content(if hasPrometheus then Some(BaseProps(InstanceId(props), domain)) else None)
    }

    /**
     * `checkPrometheusService`: the probe succeeds iff its fetch does not
     * throw, whatever it returns; a throw records the unavailability error.
     */
    method CheckPrometheusService(backend: Query -> Outcome) returns (available: bool, q: Query)
      modifies this`error
      ensures q == ProbeQuery(catalog, InstanceId(props))
      ensures available <==> backend(q).Ok?
      ensures error == if available then old(error) else Unavailable
    {
      q := ProbeQuery(catalog, InstanceId(props));
      var outcome := backend(q);
      available := outcome.Ok?;
      if !available {
        error := Unavailable;
      }
    }

    /**
     * `getInstanceNameByPrometheus`: store the looked-up domain, or the
     * instance id; a throw records an advisory error only if none is set.
     */
    method GetInstanceNameByPrometheus(backend: Query -> Outcome, instanceId: string) returns (d: string, q: Query)
      modifies this`error, this`domain
      ensures q == LookupQuery(catalog, instanceId)
      ensures d == LookupDomain(backend(q), instanceId) && domain == d
      ensures error == if LookupThrows(backend(q)) && old(error) == "" then DomainLookupFailed else old(error)
    {
      q := LookupQuery(catalog, instanceId);
      var ret := backend(q);
      var threw := true;
      if ret.Ok? && ret.response.data.Some? {
        var result := ret.response.data.value.result.GetOr([]);
        if |result| == 0 {
          threw := false;
        } else if result[0].metric.Some? {
          var metric := result[0].metric.value;
          d := if "domain" in metric && metric["domain"] != "" then metric["domain"] else instanceId;
          domain := d;
          return;
        }
      }
      if threw {
        error := if error != "" then error else DomainLookupFailed;
      }
      d := instanceId;
      domain := d;
    }

    /**
     * What one run of `initMonitor` leaves behind, given the queries it
     * issued: no fetch without an id; the probe alone when it fails; the
     * probe and then the domain lookup when it succeeds; loading over.
     */
    twostate predicate InitialisedBy(issued: seq<Query>, backend: Query -> Outcome)
      reads this
    {
      var id := InstanceId(props);
      var probe := ProbeQuery(catalog, id);
      var lookup := LookupQuery(catalog, id);
      !isLoading &&
      (id == "" ==>
         issued == [] && error == IdRequired && domain == old(domain) && hasPrometheus == old(hasPrometheus)) &&
      (id != "" && backend(probe).Fail? ==>
         issued == [probe] && !hasPrometheus && error == Unavailable && domain == old(domain)) &&
      (id != "" && backend(probe).Ok? ==>
         issued == [probe, lookup] && hasPrometheus &&
         domain == LookupDomain(backend(lookup), id) &&
         error == (if LookupThrows(backend(lookup)) then DomainLookupFailed else ""))
    }

    /**
     * `initMonitor`: start loading with no error, stop at a missing id, probe
     * the backend, and only when it answers look up the domain.
     */
    method InitMonitor(backend: Query -> Outcome) returns (issued: seq<Query>)
      modifies this`isLoading, this`error, this`domain, this`hasPrometheus
      ensures InitialisedBy(issued, backend)
      ensures Render() != Spinner
      ensures InstanceId(props) == "" ==> Render() == Alert(IdRequired)
      ensures InstanceId(props) != "" && backend(ProbeQuery(catalog, InstanceId(props))).Fail? ==>
        Render() == Alert(Unavailable)
      ensures InstanceId(props) != "" && backend(ProbeQuery(catalog, InstanceId(props))).Ok? ==>
        Render() == (if LookupThrows(backend(LookupQuery(catalog, InstanceId(props))))
                     then Alert(DomainLookupFailed)
                     else Content(Some(BaseProps(InstanceId(props), domain))))
    {
      isLoading, error := true, "";
      issued := [];
      var instanceId := InstanceId(props);
      if instanceId == "" {
        isLoading, error := false, IdRequired;
        return;
      }
      var prometheusAvailable, probe := CheckPrometheusService(backend);
      issued := [probe];
      hasPrometheus := prometheusAvailable;
      if !prometheusAvailable {
        isLoading := false;
        return;
      }
      var _, lookup := GetInstanceNameByPrometheus(backend, instanceId);
      issued := issued + [lookup];
      isLoading := false;
    }

    /** `componentDidMount`. */
    method ComponentDidMount(backend: Query -> Outcome) returns (issued: seq<Query>)
      modifies this`isLoading, this`error, this`domain, this`hasPrometheus
      ensures InitialisedBy(issued, backend)
    {
      issued := InitMonitor(backend);
    }

    /**
     * `componentDidUpdate`: re-run `initMonitor` exactly when the resolved
     * id or the detail reference changed, and otherwise change nothing.
     */
    method ComponentDidUpdate(prevProps: Props, backend: Query -> Outcome) returns (reinit: bool, issued: seq<Query>)
      modifies this`isLoading, this`error, this`domain, this`hasPrometheus
      ensures reinit == NeedsReinit(prevProps, props)
      ensures reinit ==> InitialisedBy(issued, backend)
      ensures !reinit ==> issued == [] && unchanged(this)
    {
      var currentInstanceId := InstanceId(props);
      var prevInstanceId := InstanceId(prevProps);
      reinit := currentInstanceId != prevInstanceId || props.instanceDetail != prevProps.instanceDetail;
      issued := [];
      if reinit {
        issued := InitMonitor(backend);
      }
    }
  }
}
