# Instance monitor of skyline-console, modelled in Dafny

This project models the instance-monitoring page of the skyline-console
compute dashboard (`src/pages/compute/containers/Instance/Detail/Monitor/index.jsx`).
The page finds the libvirt domain of a compute instance, checks that the
Prometheus metrics backend answers, and builds the summary cards and trend
charts. Each card has a query spec and a normaliser that turns Prometheus
responses into `{x, y}` chart points.

The model has four component modules plus two shared ones:

- `Wrappers` (`wrappers.dfy`): `Option`, the model's `undefined`.
- `Prometheus` (`prometheus.dfy`): the response shapes (`Response`, `Data`,
  `Sample` with optional `metric`, `values` and `value`), chart points,
  queries, the metric catalog, and the `metric{label="value"}` selector text.
- `Normalise` (`normalise.dfy`): the three `formatDataFn` closures. The
  trend-chart one is a method with the source's nested loops. It is proved
  equal to `Trend`, a flatten-then-filter definition.
- `Devices` (`devices.dfy`): device discovery (`new Set(...)` then
  `.filter(Boolean)`), the filter node, and the `InstanceMonitorBase` state
  (`devices`, `selectedDevice`, `isLoadingDevices`) as a class.
- `Cards` (`cards.dfy`): `getTopCardList`, `getChartCardList`, `getChartConfig`.
- `Lifecycle` (`lifecycle.dfy`): `InstanceMonitorWrapper` as a class whose
  fields are its React state. Its methods follow `initMonitor`,
  `checkPrometheusService`, `getInstanceNameByPrometheus`,
  `componentDidMount` and `componentDidUpdate`, and `Render` is the view choice.

External collaborators become parameters:

- The backend (`fetchPrometheus`) is a function `backend: Query -> Outcome`.
  It either throws (`Fail`) or resolves to a response (`Ok`). Each lifecycle
  method also returns the queries it issues. The methods build that list themselves,
  so it is a record of the calls, not a check on them. What shows that a failed probe
  skips the lookup is that the state after it is stated without `backend` of the
  lookup query.
- The metric catalog (`metricDict`) is a `Catalog` given to the controller.
- `parseFloat` and `parseFloat(v.toFixed(2))` are the fields of a `Numerics`
  value, and the model does not interpret them.
- `Date.now() / 1000` is the parameter `now`.
- The successive `Math.random()` draws are the parameter `random`.
- `t()` translation is the identity: titles and messages are the untranslated keys.

Behaviour of the code worth knowing:

- A domain lookup that returns an empty result records no advisory error. Only
  a lookup that throws records one.
- When the lookup throws, `render` then shows the error alert instead of the
  charts. The fallback domain is stored, but it is not shown.
- The trend normaliser drops only missing or short tuples. A tuple whose value
  does not parse still becomes a point with a NaN `y`.
- The synthetic fallback series carries no "synthetic" flag. It is returned
  like real points.
- The device list is ordered by first occurrence. It is not an unordered set.
- Any probe that does not throw counts as the backend being available, even
  one with no results.

## Model

| member | source | states |
|---|---|---|
| `Normalise.TopCpu` | src/pages/compute/containers/Instance/Detail/Monitor/index.jsx:49-64 | one point per result of the first response, in order, with `y` always finite; no points for absent or empty responses or results |
| `Normalise.CpuCardPoint` | src/pages/compute/containers/Instance/Detail/Monitor/index.jsx:60-63 | a result without `value` gives `{x: 0, y: 0}`; otherwise `x` is the first cell, or 0 when it is missing or empty, and `y` is 100 times the parsed second cell, or 0 when that is missing or does not parse |
| `Normalise.TopCpuFirstResponseOnly` | src/pages/compute/containers/Instance/Detail/Monitor/index.jsx:50-57 | responses after the first are ignored; absent, empty or result-less input gives `[]` |
| `Normalise.TopIops` | src/pages/compute/containers/Instance/Detail/Monitor/index.jsx:101-120 | at most one point, present iff the first response has results; missing `value` defaults to `[0, 0]`; `y` is `parseFloat(value[1])`; `x` is the first cell, undefined only for an empty tuple |
| `Normalise.TopIopsFirstResultOnly` | src/pages/compute/containers/Instance/Detail/Monitor/index.jsx:105-112 | only the first result of the first response is read |
| `Normalise.TrendPoint` | src/pages/compute/containers/Instance/Detail/Monitor/index.jsx:173-176 | a trend point's `x` is `parseFloat(v[0])`; its `y` is the two-decimal rounding of 100 times the parsed `v[1]` when that parses, and NaN otherwise |
| `Normalise.UsableIndicesSpec` | src/pages/compute/containers/Instance/Detail/Monitor/index.jsx:170-171 | the kept positions are exactly the usable tuples (present, length at least 2), in strictly increasing order |
| `Normalise.PointsOfUsableSlots` | src/pages/compute/containers/Instance/Detail/Monitor/index.jsx:170-177 | exactly one point per usable tuple, the k-th point built from the k-th usable tuple; unusable tuples are skipped without affecting the rest |
| `Normalise.PointsConcat` | src/pages/compute/containers/Instance/Detail/Monitor/index.jsx:158-181 | the points of concatenated tuple lists are the concatenated points |
| `Normalise.AllSlotsConcat` | src/pages/compute/containers/Instance/Detail/Monitor/index.jsx:158-162 | the tuples of concatenated response lists are the concatenated tuples (response, result, tuple order) |
| `Normalise.ObservedConcat` | src/pages/compute/containers/Instance/Detail/Monitor/index.jsx:158-181 | points of earlier responses all precede those of later responses |
| `Normalise.SilentResponse` | src/pages/compute/containers/Instance/Detail/Monitor/index.jsx:159-160 | a response without `data` or `data.result` contributes nothing, wherever it stands |
| `Normalise.SampleContribution` | src/pages/compute/containers/Instance/Detail/Monitor/index.jsx:164-171 | a range result contributes all its tuples; an instant result at most one point, none when `value` is absent |
| `Normalise.Synthetic` | src/pages/compute/containers/Instance/Detail/Monitor/index.jsx:146-156 | the fallback series has 61 points, the last at `now`, each `(k - j) * 60` seconds apart |
| `Normalise.FallbackPoints` | src/pages/compute/containers/Instance/Detail/Monitor/index.jsx:146-156 | the counting-down loop produces exactly the synthetic series |
| `Normalise.PushTuples` | src/pages/compute/containers/Instance/Detail/Monitor/index.jsx:170-177 | the innermost loop appends exactly the points of the usable tuples |
| `Normalise.PushResults` | src/pages/compute/containers/Instance/Detail/Monitor/index.jsx:162-178 | the per-response loop appends the points of every result's tuples in order |
| `Normalise.FormatTrend` | src/pages/compute/containers/Instance/Detail/Monitor/index.jsx:143-182 | the loop-based normaliser returns exactly `Trend`: the synthetic series for absent or empty responses, else the points of all usable tuples in response, result, tuple order |
| `Devices.Dedup` | src/pages/compute/containers/Instance/Detail/Monitor/index.jsx:302-303 | `Array.from(new Set(s))` has the same members as `s` and no duplicates |
| `Devices.FirstIndex` | src/pages/compute/containers/Instance/Detail/Monitor/index.jsx:303 | the first position at which a value occurs |
| `Devices.DedupOrder` | src/pages/compute/containers/Instance/Detail/Monitor/index.jsx:302-303 | the set keeps first-occurrence order |
| `Devices.Truthy` | src/pages/compute/containers/Instance/Detail/Monitor/index.jsx:304 | `.filter(Boolean)` keeps exactly the present non-empty labels and keeps them duplicate-free |
| `Devices.TruthyPositions` | src/pages/compute/containers/Instance/Detail/Monitor/index.jsx:304 | the filter keeps its survivors in their original order |
| `Devices.DeviceListSpec` | src/pages/compute/containers/Instance/Detail/Monitor/index.jsx:301-305 | the device list has no duplicates and no empty labels, contains every non-empty `metric.device` and nothing else, in first-occurrence order |
| `Devices.DevicesQuery` | src/pages/compute/containers/Instance/Detail/Monitor/index.jsx:298-299 | a current query for `libvirt_domain_block_stats_read_bytes_total{domain="<domain>"}` from which the domain reads back |
| `Devices.FilterNode` | src/pages/compute/containers/Instance/Detail/Monitor/index.jsx:320-325 | the node always holds `domain`, and holds `device = selectedDevice` exactly when `selectedDevice != 'all'`, nothing else |
| `Devices.InstanceMonitorBase.constructor` | src/pages/compute/containers/Instance/Detail/Monitor/index.jsx:282-285 | no devices, `'all'` selected, not loading |
| `Devices.InstanceMonitorBase.FetchDevices` | src/pages/compute/containers/Instance/Detail/Monitor/index.jsx:295-312 | issues the device query; replaces `devices` by the device list when a readable `data.result` arrives, keeps it on a throw or missing result; `isLoadingDevices` ends false |
| `Devices.InstanceMonitorBase.DomainEffect` | src/pages/compute/containers/Instance/Detail/Monitor/index.jsx:288-292 | discovery runs (one query) exactly when the domain is non-empty |
| `Devices.InstanceMonitorBase.HandleDeviceChange` | src/pages/compute/containers/Instance/Detail/Monitor/index.jsx:315-317 | the selection becomes the chosen device |
| `Devices.InstanceMonitorBase.DefaultNode` | src/pages/compute/containers/Instance/Detail/Monitor/index.jsx:320-325 | the chart node always has `domain` set to the current domain, has `device` set to the selection exactly when the selection is not `'all'`, and has no other keys |
| `Cards.TopCardList` | src/pages/compute/containers/Instance/Detail/Monitor/index.jsx:36-128 | metric keys `instanceMonitor.cpu`, `.memUsage`, `.disk_iops`, each with params exactly `{domain}`, no device key; CPU and IOPS use their own normalisers |
| `Cards.ChartCardList` | src/pages/compute/containers/Instance/Detail/Monitor/index.jsx:131-272 | metric keys `instanceMonitor.cpu`, `.memory`, `.network`, `.disk`, params exactly `{domain}`, `deviceKey = 'target_device'` exactly on network and disk, the rename keys of each, only CPU with the trend normaliser |
| `Cards.GetChartConfig` | src/pages/compute/containers/Instance/Detail/Monitor/index.jsx:276-279 | the chart cards are the CPU, memory, network and disk charts: `target_device` exactly on network and disk, rename keys `Used`/`Free`, `receive`/`transmit` and `read`/`write`, and only CPU with the trend normaliser; the top cards are the CPU, memory-usage and disk-IOPS cards with the CPU, default and IOPS normalisers and no device or rename keys; all are filtered by the domain |
| `Cards.ConfigDependsOnDomainOnly` | src/pages/compute/containers/Instance/Detail/Monitor/index.jsx:276-279 | the configuration ignores the instance id and differs for different domains |
| `Lifecycle.InstanceId` | src/pages/compute/containers/Instance/Detail/Monitor/index.jsx:409-412 | the non-empty `instanceId` prop, else the non-empty route id, else `''` (empty exactly when neither is non-empty) |
| `Lifecycle.NeedsReinit` | src/pages/compute/containers/Instance/Detail/Monitor/index.jsx:389-400 | re-initialise iff the resolved id or the `instanceDetail` reference changed |
| `Lifecycle.ReinitFollowsResolvedId` | src/pages/compute/containers/Instance/Detail/Monitor/index.jsx:389-399 | with non-empty id props, a shadowed route change does not re-initialise and an id change does |
| `Lifecycle.ProbeQuery` | src/pages/compute/containers/Instance/Detail/Monitor/index.jsx:420-424 | the probe is a current query with `{instance: id}`; its expression is present exactly when the catalog has a CPU URL, and is then the first one |
| `Lifecycle.InfoUrl` | src/pages/compute/containers/Instance/Detail/Monitor/index.jsx:440-444 | the catalog's first `openstackinfo` URL, `libvirt_domain_openstack_info` when there is none |
| `Lifecycle.LookupQuery` | src/pages/compute/containers/Instance/Detail/Monitor/index.jsx:446-449 | a current query `<url>{instance_id="<id>"}`, brace right after the URL, the id readable back |
| `Lifecycle.LookupDomain` | src/pages/compute/containers/Instance/Detail/Monitor/index.jsx:450-473 | a non-empty `domain` label of the first result is the result; the instance id on a throw, on an empty or absent result, or when that label is missing or empty; never empty for a non-empty id |
| `Lifecycle.InstanceMonitorWrapper.constructor` | src/pages/compute/containers/Instance/Detail/Monitor/index.jsx:374-382 | initial state loading, no error, empty domain, Prometheus assumed present |
| `Lifecycle.InstanceMonitorWrapper.Render` | src/pages/compute/containers/Instance/Detail/Monitor/index.jsx:505-545 | loading over error over content; the content holds the monitor base exactly when Prometheus is present |
| `Lifecycle.InstanceMonitorWrapper.CheckPrometheusService` | src/pages/compute/containers/Instance/Detail/Monitor/index.jsx:415-434 | available iff the probe does not throw; a throw sets the unavailability error |
| `Lifecycle.InstanceMonitorWrapper.GetInstanceNameByPrometheus` | src/pages/compute/containers/Instance/Detail/Monitor/index.jsx:437-474 | stores the looked-up or fallback domain; a throw sets the advisory error only when none is set |
| `Lifecycle.InstanceMonitorWrapper.InitMonitor` | src/pages/compute/containers/Instance/Detail/Monitor/index.jsx:477-503 | no fetch and the "required" error for a missing id; probe only, `hasPrometheus` false and an error when the probe throws; otherwise probe then lookup with the resolved domain; loading always ends, and the view is the matching alert or the content |
| `Lifecycle.InstanceMonitorWrapper.ComponentDidMount` | src/pages/compute/containers/Instance/Detail/Monitor/index.jsx:384-386 | mounting runs one full initialisation |
| `Lifecycle.InstanceMonitorWrapper.ComponentDidUpdate` | src/pages/compute/containers/Instance/Detail/Monitor/index.jsx:388-406 | re-initialises exactly when `NeedsReinit` holds, otherwise changes nothing |
| `Prometheus.SelectorRoundTrip` | src/pages/compute/containers/Instance/Detail/Monitor/index.jsx:446-447 | a selector starts with the metric name immediately followed by `{`, and its label value reads back unchanged |

## Left out

- `Normalise.Slots`: a `value` whose first element is itself an array (the `Array.isArray(result.value[0])` branch, line 166) cannot be written down. Tuples hold scalar cells only, so that branch is never taken.
- `Normalise.FormatTrend`, `Normalise.TopCpu`, `Normalise.TopIops`: floating point is not modelled. `parseFloat`, `* 100` followed by `toFixed(2)`, and `getSuitableValue` are abstract, and non-finite numbers such as `Infinity` are not represented.
- `Normalise.CpuCardPoint`, `Normalise.TopIops`: a cell used without `parseFloat` is read as the number it denotes. When such a cell is non-numeric text, the source keeps the text.
- Null values where the source expects objects are not modelled: a null entry in `responses`, or a null fetch result. A response, and the value a fetch resolves to, are always objects. Absent fields are modelled.
- `Lifecycle.LookupDomain`: a domain lookup that resolves with `data.result: null` is not modelled. The source's `result = []` default applies only to `undefined`, so `result.length` throws and records the advisory error; the model has no null and reads that case as an absent result, with no error.
- `Devices.InstanceMonitorBase`: the `instanceId` prop is kept as a field though no modelled member reads it. Its one use is the render's `getChartConfig(instanceId, domain)` call, which is presentation; `Cards.ConfigDependsOnDomainOnly` shows the value does not affect the configuration. Its `domain` is `const` although the source's device effect is keyed on `[domain]`: each `initMonitor` run first sets `isLoading`, so `render` shows the spinner and unmounts the base, and `hostname` never changes while a base is mounted.
- `Lifecycle.InstanceMonitorWrapper`: `props` is fixed per object. React's installing of new props is not modelled; `ComponentDidUpdate` receives the previous props and the object holds the current ones.
- Concurrency is not modelled: the `setTimeout` deferral in `componentDidUpdate` (the re-initialisation runs at once), overlapping `initMonitor` runs, stale responses racing fresh ones, and React's batching and scheduling of `setState` and `useEffect`. Each `setState` is an immediate field update.
- The `fetchPrometheus` client and the contents of `metricDict` are not modelled. They are the `backend` and `catalog` parameters.
- `Math.random()` and `Date.now()` are not modelled; they are the `random` and `now` parameters.
- All JSX, antd widgets, styles, `chartProps`, `span`, `renderContent`, the device selector's visibility, and i18n `t()` are presentation only. The memory, network and disk cards use the chart component's default response handling, which is not part of this model.
- `console.error` logging is not modelled.
- `src/layouts/Auth/index.jsx` is a route and layout shell with no logic, and is not part of this model.
