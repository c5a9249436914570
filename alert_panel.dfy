/** The alert panel: alerts derived afresh from the current metrics and
    container list by threshold rules, the session's own list of alerts that
    the user can acknowledge or dismiss, and the merged views the panel
    shows. */
module AlertPanel {
  import opened Common
  import opened Seqs
  import opened ContainerGrid

  // The snapshot of system metrics the panel reads.

  datatype CpuInfo = CpuInfo(usage: real, cores: nat, temperature: real)

  datatype MemoryInfo = MemoryInfo(used: real, total: real, usage: real)

  datatype DiskInfo = DiskInfo(used: real, total: real, usage: real)

  datatype NetworkInfo = NetworkInfo(inRate: real, outRate: real)

  datatype SystemData = SystemData(
    cpu: CpuInfo,
    memory: MemoryInfo,
    disk: DiskInfo,
    network: NetworkInfo,
    uptime: string,
    load: seq<real>)

  datatype AlertType = Critical | Warning | Info

  datatype Metric = CpuUsage | MemoryUsage

  /** An alert's description. A derived usage alert records which metric it
      reports, the reading and its advice; the stopped-container alert
      records how many containers are stopped. The reading is kept as a
      number: its decimal rendering is not part of the model. */
  datatype Description =
    | Text(text: string)
    | UsageAt(metric: Metric, usage: real, advice: string)
    | ContainersStopped(count: nat)

  datatype Alert = Alert(
    id: string,
    kind: AlertType,
    title: string,
    description: Description,
    timestamp: string,
    source: string,
    acknowledged: bool)

  const SystemMonitor := "System Monitor"
  const ContainerMonitor := "Container Monitor"

  /** The alerts the session starts with. */
  const SeedAlerts: seq<Alert> := [
    Alert("1", Warning, "High CPU Usage",
      Text("System CPU usage has exceeded 65% for the last 5 minutes"),
      "2024-01-15 10:25:00", SystemMonitor, false),
    Alert("2", Critical, "Container Restart Loop",
      Text("NATS container has restarted 3 times in the last hour"),
      "2024-01-15 10:20:00", ContainerMonitor, false),
    Alert("3", Info, "Scheduled Maintenance",
      Text("System maintenance window scheduled for tonight at 2:00 AM"),
      "2024-01-15 09:00:00", "Maintenance Scheduler", true),
    Alert("4", Warning, "Memory Usage Alert",
      Text("System memory usage approaching 80% threshold"),
      "2024-01-15 08:45:00", SystemMonitor, false)
  ]

  // ----- Derived alerts -----

  predicate AboutCpu(a: Alert) { a.description.UsageAt? && a.description.metric == CpuUsage }

  predicate AboutMemory(a: Alert) { a.description.UsageAt? && a.description.metric == MemoryUsage }

  predicate AboutStopped(a: Alert) { a.description.ContainersStopped? }

  /** The position of a rule in the fixed evaluation order CPU, memory,
      containers; 3 for an alert no rule produces. */
  function Rank(a: Alert): nat {
    if AboutCpu(a) then 0 else if AboutMemory(a) then 1 else if AboutStopped(a) then 2 else 3
  }

  function CriticalCpuAlert(usage: real, clock: Clock): Alert {
    Alert("cpu-" + clock.now, Critical, "Critical CPU Usage",
      UsageAt(CpuUsage, usage, "immediate attention required"), clock.stamp, SystemMonitor, false)
  }

  function HighCpuAlert(usage: real, clock: Clock): Alert {
    Alert("cpu-" + clock.now, Warning, "High CPU Usage",
      UsageAt(CpuUsage, usage, "monitor closely"), clock.stamp, SystemMonitor, false)
  }

  function CriticalMemoryAlert(usage: real, clock: Clock): Alert {
    Alert("memory-" + clock.now, Critical, "Critical Memory Usage",
      UsageAt(MemoryUsage, usage, "risk of system instability"), clock.stamp, SystemMonitor, false)
  }

  function StoppedContainersAlert(count: nat, clock: Clock): Alert {
    Alert("containers-" + clock.now, Warning, "Stopped Containers",
      ContainersStopped(count), clock.stamp, ContainerMonitor, false)
  }

  /** The CPU rule: a critical alert above 80%, a warning above 65%. */
  function CpuAlerts(usage: real, clock: Clock): (r: seq<Alert>)
    ensures |r| == (if usage > 65.0 then 1 else 0)
    ensures forall a :: a in r ==>
      AboutCpu(a) && !a.acknowledged && a.source == SystemMonitor &&
      a.kind == (if usage > 80.0 then Critical else Warning)
  {
    if usage > 80.0 then [CriticalCpuAlert(usage, clock)]
    else if usage > 65.0 then [HighCpuAlert(usage, clock)]
    else []
  }

  /** The memory rule: a critical alert above 85%, and no warning tier. */
  function MemoryAlerts(usage: real, clock: Clock): (r: seq<Alert>)
    ensures |r| == (if usage > 85.0 then 1 else 0)
    ensures forall a :: a in r ==>
      AboutMemory(a) && !a.acknowledged && a.source == SystemMonitor && a.kind == Critical
  {
    if usage > 85.0 then [CriticalMemoryAlert(usage, clock)] else []
  }

  /** The container rule: one warning that carries the number of stopped
      containers, when there is at least one. */
  function ContainerAlerts(cs: seq<Container>, clock: Clock): (r: seq<Alert>)
    ensures |r| == (if StoppedCount(cs) > 0 then 1 else 0)
    ensures forall a :: a in r ==>
      AboutStopped(a) && !a.acknowledged && a.kind == Warning && a.title == "Stopped Containers" &&
      a.description.count == StoppedCount(cs)
  {
    var stopped := StoppedCount(cs);
    if stopped > 0 then [StoppedContainersAlert(stopped, clock)] else []
  }

  /** The alerts the threshold rules derive from one snapshot: at most one
      per rule, in rule order, none of them acknowledged. */
  function SystemAlerts(sys: SystemData, cs: seq<Container>, clock: Clock): (r: seq<Alert>)
    ensures |r| <= 3
    ensures forall i, j :: 0 <= i < j < |r| ==> Rank(r[i]) < Rank(r[j])
    ensures forall a :: a in r ==> !a.acknowledged && Rank(a) < 3
  {
    var cpu := CpuAlerts(sys.cpu.usage, clock);
    var memory := MemoryAlerts(sys.memory.usage, clock);
    var containers := ContainerAlerts(cs, clock);
    RulePartsInOrder(cpu, memory, containers);
    cpu + memory + containers
  }

  /** Three parts of at most one alert each, from the CPU, memory and
      container rules, concatenate into a list that is strictly in rule
      order. */
  lemma RulePartsInOrder(cpu: seq<Alert>, memory: seq<Alert>, containers: seq<Alert>)
    requires |cpu| <= 1 && |memory| <= 1 && |containers| <= 1
    requires forall a :: a in cpu ==> AboutCpu(a)
    requires forall a :: a in memory ==> AboutMemory(a)
    requires forall a :: a in containers ==> AboutStopped(a)
    ensures var r := cpu + memory + containers;
      forall i, j :: 0 <= i < j < |r| ==> Rank(r[i]) < Rank(r[j])
  {
    var r := cpu + memory + containers;
    forall k | 0 <= k < |r|
      ensures Rank(r[k]) == if k < |cpu| then 0 else if k < |cpu| + |memory| then 1 else 2
    {
      if k < |cpu| {
        assert r[k] == cpu[k];
        assert cpu[k] in cpu;
      } else if k < |cpu| + |memory| {
        assert r[k] == memory[k - |cpu|];
        assert memory[k - |cpu|] in memory;
      } else {
        assert r[k] == containers[k - |cpu| - |memory|];
        assert containers[k - |cpu| - |memory|] in containers;
      }
    }
  }

  /** The derived alerts built step by step, pushing each rule's alert onto
      a local list. */
  method GenerateSystemAlerts(sys: SystemData, cs: seq<Container>, clock: Clock)
    returns (alerts: seq<Alert>)
    ensures alerts == SystemAlerts(sys, cs, clock)
  {
    alerts := [];
    if sys.cpu.usage > 80.0 {
      alerts := alerts + [CriticalCpuAlert(sys.cpu.usage, clock)];
    } else if sys.cpu.usage > 65.0 {
      alerts := alerts + [HighCpuAlert(sys.cpu.usage, clock)];
    }
    if sys.memory.usage > 85.0 {
      alerts := alerts + [CriticalMemoryAlert(sys.memory.usage, clock)];
    }
    var stopped := Filter(cs, IsStopped);
    if |stopped| > 0 {
      alerts := alerts + [StoppedContainersAlert(|stopped|, clock)];
    }
  }

  /** Filtering the derived list is filtering each rule's part. */
  lemma FilterSystemAlerts(sys: SystemData, cs: seq<Container>, clock: Clock, p: Alert -> bool)
    ensures Filter(SystemAlerts(sys, cs, clock), p) ==
      Filter(CpuAlerts(sys.cpu.usage, clock), p) +
      Filter(MemoryAlerts(sys.memory.usage, clock), p) +
      Filter(ContainerAlerts(cs, clock), p)
  {
    var cpu := CpuAlerts(sys.cpu.usage, clock);
    var memory := MemoryAlerts(sys.memory.usage, clock);
    var containers := ContainerAlerts(cs, clock);
    FilterConcat(cpu + memory, containers, p);
    FilterConcat(cpu, memory, p);
  }

  /** CPU rule: above 80% exactly one critical CPU alert, above 65% up to
      80% exactly one warning, otherwise none. */
  lemma CpuRule(sys: SystemData, cs: seq<Container>, clock: Clock)
    ensures var r := SystemAlerts(sys, cs, clock);
      |Filter(r, AboutCpu)| == (if sys.cpu.usage > 65.0 then 1 else 0) &&
      forall a :: a in r && AboutCpu(a) ==>
        a.kind == (if sys.cpu.usage > 80.0 then Critical else Warning) && a.source == SystemMonitor
  {
    var cpu := CpuAlerts(sys.cpu.usage, clock);
    FilterSystemAlerts(sys, cs, clock, AboutCpu);
    FilterKeepsAll(cpu, AboutCpu);
    FilterDropsAll(MemoryAlerts(sys.memory.usage, clock), AboutCpu);
    FilterDropsAll(ContainerAlerts(cs, clock), AboutCpu);
  }

  /** Memory rule: above 85% exactly one critical memory alert, otherwise
      none; this rule has no warning tier. */
  lemma MemoryRule(sys: SystemData, cs: seq<Container>, clock: Clock)
    ensures var r := SystemAlerts(sys, cs, clock);
      |Filter(r, AboutMemory)| == (if sys.memory.usage > 85.0 then 1 else 0) &&
      forall a :: a in r && AboutMemory(a) ==> a.kind == Critical && a.source == SystemMonitor
  {
    var memory := MemoryAlerts(sys.memory.usage, clock);
    FilterSystemAlerts(sys, cs, clock, AboutMemory);
    FilterDropsAll(CpuAlerts(sys.cpu.usage, clock), AboutMemory);
    FilterKeepsAll(memory, AboutMemory);
    FilterDropsAll(ContainerAlerts(cs, clock), AboutMemory);
  }

  /** Container rule: one warning exactly when some container is stopped,
      carrying the number of stopped containers; containers in the error
      state are not counted. */
  lemma StoppedContainersRule(sys: SystemData, cs: seq<Container>, clock: Clock)
    ensures var r := SystemAlerts(sys, cs, clock);
      |Filter(r, AboutStopped)| == (if exists c :: c in cs && c.status == Stopped then 1 else 0) &&
      forall a :: a in r && AboutStopped(a) ==>
        a.kind == Warning && a.title == "Stopped Containers" &&
        a.description.count == |cs| - RunningCount(cs) - ErrorCount(cs)
  {
    var containers := ContainerAlerts(cs, clock);
    FilterSystemAlerts(sys, cs, clock, AboutStopped);
    FilterDropsAll(CpuAlerts(sys.cpu.usage, clock), AboutStopped);
    FilterDropsAll(MemoryAlerts(sys.memory.usage, clock), AboutStopped);
    FilterKeepsAll(containers, AboutStopped);
    SummaryCounts(cs);
    var f := Filter(cs, IsStopped);
    if exists c :: c in cs && c.status == Stopped {
      var c :| c in cs && c.status == Stopped;
      assert c in f;
    } else if f != [] {
      assert f[0] in f;
    }
  }

  // ----- The session's alert list -----

  /** `acknowledgeAlert`: every alert with the id becomes acknowledged,
      every other field and every other alert stays as it was. */
  function Acknowledged(s: seq<Alert>, id: string): (r: seq<Alert>)
    ensures |r| == |s|
    ensures forall i :: 0 <= i < |s| ==> r[i].acknowledged == (s[i].acknowledged || s[i].id == id)
    ensures forall i :: 0 <= i < |s| ==> r[i].(acknowledged := s[i].acknowledged) == s[i]
  {
    if s == [] then []
    else [if s[0].id == id then s[0].(acknowledged := true) else s[0]] + Acknowledged(s[1..], id)
  }

  lemma AcknowledgeIdempotent(s: seq<Alert>, id: string)
    ensures Acknowledged(Acknowledged(s, id), id) == Acknowledged(s, id)
  {
  }

  /** Acknowledging an id that no session alert carries (the id of a derived
      alert, for one) changes nothing. */
  lemma AcknowledgeUnknownId(s: seq<Alert>, id: string)
    requires forall a :: a in s ==> a.id != id
    ensures Acknowledged(s, id) == s
  {
    var r := Acknowledged(s, id);
    forall i | 0 <= i < |s| ensures r[i] == s[i] {
      assert s[i] in s;
    }
  }

  function NotId(id: string): Alert -> bool {
    (a: Alert) => a.id != id
  }

  /** `dismissAlert`: every alert with the id is removed, every other alert
      is kept, in order. */
  function Dismissed(s: seq<Alert>, id: string): (r: seq<Alert>)
    ensures IsSubsequence(r, s)
    ensures forall a :: a in r <==> a in s && a.id != id
    ensures forall a: Alert :: a.id != id ==> multiset(r)[a] == multiset(s)[a]
  {
    Filter(s, NotId(id))
  }

  lemma DismissIdempotent(s: seq<Alert>, id: string)
    ensures Dismissed(Dismissed(s, id), id) == Dismissed(s, id)
  {
    FilterIdempotent(s, NotId(id));
  }

  // ----- The merged views -----

  predicate IsUnacknowledged(a: Alert) { !a.acknowledged }

  predicate IsCritical(a: Alert) { a.kind == Critical }

  datatype Views = Views(all: seq<Alert>, unacknowledged: seq<Alert>, critical: seq<Alert>)

  /** The session alerts followed by the derived alerts; the unacknowledged
      and critical views select from that list in order. Every derived
      alert is unacknowledged, so all of them end the unacknowledged view. */
  function AlertViews(persistent: seq<Alert>, sys: SystemData, cs: seq<Container>, clock: Clock): (v: Views)
    ensures v.all == persistent + SystemAlerts(sys, cs, clock)
    ensures IsSubsequence(v.unacknowledged, v.all)
    ensures forall a :: a in v.unacknowledged <==> a in v.all && !a.acknowledged
    ensures IsSubsequence(v.critical, v.all)
    ensures forall a :: a in v.critical <==> a in v.all && a.kind == Critical
    ensures forall a :: multiset(v.critical)[a] == if a.kind == Critical then multiset(v.all)[a] else 0
    ensures v.unacknowledged == Filter(persistent, IsUnacknowledged) + SystemAlerts(sys, cs, clock)
  {
    var derived := SystemAlerts(sys, cs, clock);
    var all := persistent + derived;
    FilterConcat(persistent, derived, IsUnacknowledged);
    FilterKeepsAll(derived, IsUnacknowledged);
    Views(all, Filter(all, IsUnacknowledged), Filter(all, IsCritical))
  }

  /** The alert list held by the panel for the session. */
  class AlertBoard {
    var alerts: seq<Alert>

    constructor ()
      ensures alerts == SeedAlerts
    {
      alerts := SeedAlerts;
    }

    method Acknowledge(id: string)
      modifies this
      ensures alerts == Acknowledged(old(alerts), id)
    {
      alerts := Acknowledged(alerts, id);
    }

    method Dismiss(id: string)
      modifies this
      ensures alerts == Dismissed(old(alerts), id)
    {
      alerts := Dismissed(alerts, id);
    }

    function Views(sys: SystemData, cs: seq<Container>, clock: Clock): (v: Views)
      reads this
      ensures |v.all| >= |alerts| && v.all[..|alerts|] == alerts
    {
      AlertViews(alerts, sys, cs, clock)
    }
  }
}
