# Contact-center watchtower: monitoring dashboard model

A Dafny model of the monitoring dashboard of the contact-center watchtower UI.
The dashboard is a client-side mock. It keeps a snapshot of host metrics and a
list of service containers, and moves both by a random step on a timer. Four
panels read that state:

- **Container grid**: start, stop and restart a container, and show the
  summary counts.
- **Log viewer**: a live tail capped at 50 entries, with a container, level
  and case-insensitive text query.
- **Alert panel**: a session list of alerts the user can acknowledge or
  dismiss. Alerts derived from the current snapshot by threshold rules are
  shown after it in a merged list built afresh on every render; the session
  list itself never grows.
- **Dashboard**: owns the metrics and the container list, and runs the
  periodic tick.

Modules:

- `Common`: `Option`, and a `Clock` that stands for one reading of the wall
  clock. `now` is the `Date.now()` text and `stamp` the `toLocaleString()`
  text.
- `Seqs`: `Filter`, the model of `Array.prototype.filter`. Its contract says
  the result is an order-preserving subsequence of the input and keeps each
  element's multiplicity exactly when the predicate holds. It comes with
  concatenation, idempotence and congruence lemmas.
- `ContainerGrid`: containers, the action switch, the summary counts and the
  buttons each status offers.
- `LogViewer`: log entries, the capped append, generating an entry on a tick,
  the query, and the `LogTail` class that holds the buffer.
- `AlertPanel`: the metric snapshot shape, alerts, the three threshold rules,
  acknowledge and dismiss, the merged views, and the `AlertBoard` class that
  holds the session list.
- `MonitoringDashboard`: the seed data, the clamped random tick, and the
  `Dashboard` class that holds the metrics and the containers.

Modelling choices:

- Every `Math.random()` draw is a parameter `r` with `0 <= r < 1`. The
  container tick takes one draw per container, aligned with the list.
- Each read of the clock is a `Clock` parameter.
- Metric readings are `real`.
- A derived alert's description keeps the reading as a number: `UsageAt`
  holds the metric, the reading and the advice text, and `ContainersStopped`
  holds the count. The model never produces the formatted text.
- The log query's search text is matched against the entry's message and its
  container *id*, both lower-cased (LogViewer.tsx:150-152). The display name
  shown in the container list plays no part in the search.

## Model

| member | source | states |
|---|---|---|
| ContainerGrid.Transition | src/components/monitoring/ContainerGrid.tsx:49-70 | start sets status running and uptime "0m" and keeps cpu, memory and restarts. stop sets status stopped, cpu 0, memory 0 and uptime "0m". restart sets status running, adds one restart and sets uptime "0m". Any other action leaves the record unchanged. id, name and image never change. No action puts a container into the error state. The CPU invariant is preserved. |
| ContainerGrid.ApplyAction | src/components/monitoring/ContainerGrid.tsx:47-73 | The list keeps its length and order. Each container with the id is replaced by its transition, and every other container is unchanged. If every container satisfies the CPU invariant, it still holds afterwards. |
| ContainerGrid.UnknownActionIsNoOp | src/components/monitoring/ContainerGrid.tsx:68-69 | An unrecognised action string leaves the whole list unchanged. |
| ContainerGrid.UnknownIdIsNoOp | src/components/monitoring/ContainerGrid.tsx:47-72 | An id that no container carries leaves the whole list unchanged. |
| ContainerGrid.SummaryCounts | src/components/monitoring/ContainerGrid.tsx:129-155 | The running, stopped and error counts add up to the total, so running + stopped ≤ total. Equality holds exactly when no container is in the error state. |
| ContainerGrid.RestartsNeverDecrease | src/components/monitoring/ContainerGrid.tsx:62-67 | The total restart count shown above the grid grows by exactly the number of containers a restart targets, and no other action changes it. It never decreases. |
| ContainerGrid.OfferedActions | src/components/monitoring/ContainerGrid.tsx:240-274 | A running container offers stop and restart. Any other status offers start. No other action is offered. |
| ContainerGrid.OfferedActionsTakeEffect | src/components/monitoring/ContainerGrid.tsx:240-274 | Every offered action changes the container. The container is running afterwards unless the action was stop. Start is offered afterwards exactly when the action was stop. |
| AlertPanel.CpuAlerts | src/components/monitoring/AlertPanel.tsx:141-161 | One alert above 65%, none otherwise. It is critical above 80% and a warning otherwise, unacknowledged, from the system monitor. |
| AlertPanel.MemoryAlerts | src/components/monitoring/AlertPanel.tsx:163-173 | One critical, unacknowledged alert from the system monitor above 85%, none otherwise. There is no warning tier. |
| AlertPanel.ContainerAlerts | src/components/monitoring/AlertPanel.tsx:175-186 | One unacknowledged "Stopped Containers" warning carrying the stopped count, exactly when that count is positive. |
| AlertPanel.SystemAlerts | src/components/monitoring/AlertPanel.tsx:138-189 | At most three derived alerts, strictly in rule order (CPU, memory, containers), none acknowledged. |
| AlertPanel.GenerateSystemAlerts | src/components/monitoring/AlertPanel.tsx:138-189 | Pushing each rule's alert onto a local list yields exactly the derived list. |
| AlertPanel.CpuRule | src/components/monitoring/AlertPanel.tsx:141-161 | The derived list has exactly one CPU alert when usage > 65%. That alert is critical exactly when usage > 80%. |
| AlertPanel.MemoryRule | src/components/monitoring/AlertPanel.tsx:163-173 | The derived list has exactly one memory alert when usage > 85%, and it is critical. |
| AlertPanel.StoppedContainersRule | src/components/monitoring/AlertPanel.tsx:175-186 | The derived list has one container alert exactly when some container is stopped. Its count is total minus running minus error, so error containers are not counted. |
| AlertPanel.Acknowledged | src/components/monitoring/AlertPanel.tsx:97-101 | Same length. An alert is acknowledged afterwards iff it was acknowledged before or carries the id. No other field changes. |
| AlertPanel.AcknowledgeIdempotent | src/components/monitoring/AlertPanel.tsx:97-101 | Acknowledging the same id twice is the same as acknowledging it once. |
| AlertPanel.AcknowledgeUnknownId | src/components/monitoring/AlertPanel.tsx:97-101 | Acknowledging an id that no session alert carries, such as a derived alert's id, changes nothing. |
| AlertPanel.Dismissed | src/components/monitoring/AlertPanel.tsx:103-105 | The result is an order-preserving subsequence. An alert is in it iff it was in the list and has another id. Other alerts keep their multiplicity. |
| AlertPanel.DismissIdempotent | src/components/monitoring/AlertPanel.tsx:103-105 | Dismissing the same id twice is the same as dismissing it once. |
| AlertPanel.AlertViews | src/components/monitoring/AlertPanel.tsx:191-193 | All alerts are the session alerts followed by the derived ones. The unacknowledged and critical views are in-order selections with exact membership and multiplicity, so the card counts are fixed. The unacknowledged view ends with every derived alert. |
| AlertPanel.AlertBoard.constructor | src/components/monitoring/AlertPanel.tsx:56-93 | The session list starts as the four seed alerts. |
| AlertPanel.AlertBoard.Acknowledge | src/components/monitoring/AlertPanel.tsx:97-101 | The session list becomes its acknowledged version. |
| AlertPanel.AlertBoard.Dismiss | src/components/monitoring/AlertPanel.tsx:103-105 | The session list becomes its dismissed version. |
| AlertPanel.AlertBoard.Views | src/components/monitoring/AlertPanel.tsx:191-193 | The merged list starts with the session list unchanged. |
| LogViewer.Appended | src/components/monitoring/LogViewer.tsx:133 | After one append the buffer holds min(old length, 49) + 1 ≤ 50 entries. The new entry is last, preceded by the latest 49 old entries. |
| LogViewer.AppendedIsLatest | src/components/monitoring/LogViewer.tsx:133 | On a buffer within capacity, one append gives the latest 50 of the buffer followed by the entry. |
| LogViewer.AppendAllKeepsLatest | src/components/monitoring/LogViewer.tsx:133 | First in, first out: any run of appends leaves exactly the 50 most recent entries of the whole stream, in order. |
| LogViewer.AppendFromEmpty | src/components/monitoring/LogViewer.tsx:133 | From empty, k appends leave min(k, 50) entries, the last ones appended. Past 50, the oldest kept is the (k-50+1)-th. |
| LogViewer.RunningIds | src/components/monitoring/LogViewer.tsx:122 | As many ids as running containers, and an id is listed iff a running container carries it. |
| LogViewer.PickIndex | src/components/monitoring/LogViewer.tsx:127-130 | floor(r·n) for 0 ≤ r < 1 is a valid index into n elements. |
| LogViewer.PickLevel | src/components/monitoring/LogViewer.tsx:121-129 | A generated level is one of the weighted pool (info, info, info, warn, error), so it is never debug. |
| LogViewer.PickMessage | src/components/monitoring/LogViewer.tsx:110-130 | A generated message is one of the eight templates. |
| LogViewer.NextLog | src/components/monitoring/LogViewer.tsx:121-131 | No entry iff no container is running. Otherwise the entry belongs to a running container, is not debug, uses a template message, and takes its id and timestamp from the clock. |
| LogViewer.Includes | src/components/monitoring/LogViewer.tsx:150-152 | `includes` returns true iff the needle occurs at some position of the haystack. |
| LogViewer.FilteredLogs | src/components/monitoring/LogViewer.tsx:147-155 | The shown entries are an in-order subsequence of the buffer. An entry is shown iff it passes the container, level and case-insensitive search conditions. Shown entries keep their multiplicity. |
| LogViewer.NoFilterIsIdentity | src/components/monitoring/LogViewer.tsx:148-150 | With "all", "all" and an empty search, the whole buffer is shown. |
| LogViewer.QueryIgnoresCase | src/components/monitoring/LogViewer.tsx:150-152 | Two search texts with the same lower case show the same entries. |
| LogViewer.LogTail.constructor | src/components/monitoring/LogViewer.tsx:46-103 | The buffer starts as the eight seed entries, within capacity. |
| LogViewer.LogTail.Tick | src/components/monitoring/LogViewer.tsx:106-138 | With live tail off nothing happens. Otherwise the generated entry, if any, is appended with the cap. The buffer stays within 50. |
| MonitoringDashboard.JitterBounds | src/components/MonitoringDashboard.tsx:113-117 | (r − 0.5)·w lies in [−w/2, w/2] for 0 ≤ r < 1. |
| MonitoringDashboard.ClampedStepIsSmall | src/components/MonitoringDashboard.tsx:113-114 | Clamping a step from a reading already inside the bounds moves it no further than the step. |
| MonitoringDashboard.SeedContainersConsistent | src/components/MonitoringDashboard.tsx:39-100 | Every seed container satisfies the CPU invariant. |
| MonitoringDashboard.SeedStoppedCount | src/components/MonitoringDashboard.tsx:39-100 | Exactly one seed container (NATS) is stopped. |
| MonitoringDashboard.SeedDerivedAlerts | src/components/MonitoringDashboard.tsx:30-100 | On the seed snapshot the rules derive exactly a CPU warning at 67% and a one-container stopped warning. 76.5% memory raises nothing. |
| MonitoringDashboard.TickSystem | src/components/MonitoringDashboard.tsx:111-119 | CPU and memory usage stay in [10, 90] and move by at most 5 and 2.5. Network rates stay ≥ 0 and move by at most 25 and 15. Nothing else changes. |
| MonitoringDashboard.TickContainer | src/components/MonitoringDashboard.tsx:121-126 | Only CPU changes. Afterwards the CPU invariant holds, and a running container's CPU moves by at most 10. |
| MonitoringDashboard.TickContainers | src/components/MonitoringDashboard.tsx:121-126 | Same length. Only CPU changes. Every container satisfies the CPU invariant whatever held before. Running containers move by at most 10. |
| MonitoringDashboard.Dashboard.constructor | src/components/MonitoringDashboard.tsx:104-105 | The state starts as the seed snapshot and seed containers, and the invariant holds. |
| MonitoringDashboard.Dashboard.Tick | src/components/MonitoringDashboard.tsx:109-129 | The new state is the ticked snapshot and containers. It establishes the invariant without requiring it. |
| MonitoringDashboard.Dashboard.HandleContainerAction | src/components/monitoring/ContainerGrid.tsx:41-76 | The containers become the result of the action, the metrics are untouched, and the invariant is kept. |
| MonitoringDashboard.Dashboard.RunningContainers | src/components/MonitoringDashboard.tsx:134-135 | The header's running figure is at most the total, and it is zero iff no container is running. |

## Left out

- The `actionLoading` flag and the 1.5 s simulated delay of the container handler are not modelled. The model has no concurrency or timing, so an action completes atomically.
- Toast notifications, auto-scrolling, icons, badges, tabs and all other rendering are not modelled.
- The alert panel's notifications on/off toggle is not modelled. It only changes what is rendered.
- `toFixed(1)` formatting of readings in alert descriptions is not modelled. Descriptions keep the numeric reading.
- `toLowerCase` is modelled for ASCII letters only. There is no Unicode case mapping.
- Timers (`setInterval`, `useEffect` cleanup) are not modelled. Each tick is a method call.
- The derived alerts of one evaluation share a single clock reading. In the component each alert calls `Date.now()` separately.
- Log entry ids come from `Date.now()`. Their uniqueness is not modelled.
- MonitoringDashboard.Dashboard.HandleContainerAction accepts any action string for any container, as the handler does. It does not require the action to be one the card offers.
- `SystemOverview` (src/components/monitoring/SystemOverview.tsx) is not part of this model. It only renders the snapshot.
- The snapshot's disk, uptime and load fields are carried unchanged. No rule reads them.
