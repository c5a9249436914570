/** The dashboard's own state: the system metrics and the container list,
    their seed values, and the periodic tick that moves every reading by a
    clamped random step. */
module MonitoringDashboard {
  import opened Seqs
  import opened ContainerGrid
  import opened AlertPanel
  import opened Common

  /** A value drawn from `Math.random()`. */
  predicate IsRandom(r: real) { 0.0 <= r < 1.0 }

  /** x pulled back into [lo, hi]. */
  function Clamp(lo: real, hi: real, x: real): real {
    if x < lo then lo else if x > hi then hi else x
  }

  /** A random step of the given width centred on zero: it lies in
      [-width/2, width/2). */
  function Jitter(r: real, width: real): real { (r - 0.5) * width }

  lemma JitterBounds(r: real, width: real)
    requires IsRandom(r) && width >= 0.0
    ensures -width / 2.0 <= Jitter(r, width) <= width / 2.0
  {
    var q := 1.0 - r;
    assert q > 0.0;
    assert r * width >= 0.0 && q * width >= 0.0;
    assert Jitter(r, width) == r * width - width / 2.0 == width / 2.0 - q * width;
  }

  /** A reading that starts inside [lo, hi] and moves by at most d moves by
      at most d after clamping back into [lo, hi]. */
  lemma ClampedStepIsSmall(lo: real, hi: real, x: real, step: real, d: real)
    ensures lo <= x <= hi && -d <= step <= d ==> -d <= Clamp(lo, hi, x + step) - x <= d
  {
  }

  const SeedSystem := SystemData(
    CpuInfo(67.0, 8, 72.0),
    MemoryInfo(24.5, 32.0, 76.5),
    DiskInfo(1.2, 2.0, 60.0),
    NetworkInfo(125.3, 89.7),
    "12d 15h 42m",
    [1.2, 1.5, 1.8])

  const SeedContainers: seq<Container> := [
    Container("web-frontend", "Web Frontend", Running, 12.0, 512.0, "2d 5h", 0, "nginx:latest"),
    Container("api-service", "API Service", Running, 45.0, 1024.0, "2d 5h", 1, "node:18"),
    Container("cube-analytics", "Cube Analytics", Running, 23.0, 768.0, "2d 4h", 0, "cubejs/cube:latest"),
    Container("redis", "Redis", Running, 8.0, 256.0, "2d 5h", 0, "redis:7-alpine"),
    Container("postgres", "PostgreSQL", Running, 15.0, 512.0, "2d 5h", 0, "postgres:15"),
    Container("nats", "NATS", Stopped, 0.0, 0.0, "0m", 3, "nats:latest")
  ]

  /** The seed containers already satisfy the CPU invariant. */
  lemma SeedContainersConsistent()
    ensures forall c :: c in SeedContainers ==> CpuConsistent(c)
  {
  }

  /** A list whose only stopped container is its last one has a stopped
      count of one. */
  lemma OnlyLastStopped(cs: seq<Container>)
    requires cs != [] && IsStopped(cs[|cs| - 1])
    requires forall i :: 0 <= i < |cs| - 1 ==> !IsStopped(cs[i])
    ensures StoppedCount(cs) == 1
  {
    var n := |cs| - 1;
    assert cs == cs[..n] + [cs[n]];
    FilterConcat(cs[..n], [cs[n]], IsStopped);
    FilterDropsAll(cs[..n], IsStopped);
    assert [cs[n]][1..] == [];
  }

  /** Exactly one seed container (NATS) is stopped. */
  lemma SeedStoppedCount()
    ensures StoppedCount(SeedContainers) == 1
  {
    OnlyLastStopped(SeedContainers);
  }

  /** On the seed data the alert panel derives exactly a CPU warning (67%
      is above 65% but not above 80%) and a stopped-container warning for the
      one stopped container; 76.5% memory raises nothing. */
  lemma SeedDerivedAlerts(clock: Clock)
    ensures SystemAlerts(SeedSystem, SeedContainers, clock) ==
      [HighCpuAlert(67.0, clock), StoppedContainersAlert(1, clock)]
  {
    SeedStoppedCount();
  }

  /** The metrics after one tick: CPU and memory usage take a clamped
      random step and stay within [10, 90], network rates take a random step
      and stay non-negative, and nothing else changes. */
  function TickSystem(s: SystemData, rCpu: real, rMemory: real, rIn: real, rOut: real): (t: SystemData)
    requires IsRandom(rCpu) && IsRandom(rMemory) && IsRandom(rIn) && IsRandom(rOut)
    ensures 10.0 <= t.cpu.usage <= 90.0 && 10.0 <= t.memory.usage <= 90.0
    ensures t.network.inRate >= 0.0 && t.network.outRate >= 0.0
    ensures 10.0 <= s.cpu.usage <= 90.0 ==> -5.0 <= t.cpu.usage - s.cpu.usage <= 5.0
    ensures 10.0 <= s.memory.usage <= 90.0 ==> -2.5 <= t.memory.usage - s.memory.usage <= 2.5
    ensures s.network.inRate >= 0.0 ==> -25.0 <= t.network.inRate - s.network.inRate <= 25.0
    ensures s.network.outRate >= 0.0 ==> -15.0 <= t.network.outRate - s.network.outRate <= 15.0
    ensures t.cpu.cores == s.cpu.cores && t.cpu.temperature == s.cpu.temperature
    ensures t.memory.used == s.memory.used && t.memory.total == s.memory.total
    ensures t.disk == s.disk && t.uptime == s.uptime && t.load == s.load
  {
    JitterBounds(rCpu, 10.0);
    JitterBounds(rMemory, 5.0);
    JitterBounds(rIn, 50.0);
    JitterBounds(rOut, 30.0);
    ClampedStepIsSmall(10.0, 90.0, s.cpu.usage, Jitter(rCpu, 10.0), 5.0);
    ClampedStepIsSmall(10.0, 90.0, s.memory.usage, Jitter(rMemory, 5.0), 2.5);
    s.(cpu := s.cpu.(usage := Clamp(10.0, 90.0, s.cpu.usage + Jitter(rCpu, 10.0))),
       memory := s.memory.(usage := Clamp(10.0, 90.0, s.memory.usage + Jitter(rMemory, 5.0))),
       network := NetworkInfo(
         MaxReal(0.0, s.network.inRate + Jitter(rIn, 50.0)),
         MaxReal(0.0, s.network.outRate + Jitter(rOut, 30.0))))
  }

  /** The larger of a and b. */
  function MaxReal(a: real, b: real): real { if a < b then b else a }

  /** One container after a tick: a running container's CPU takes a clamped
      random step within [0, 100]; any other container's CPU is forced to 0. */
  function TickContainer(c: Container, r: real): (t: Container)
    requires IsRandom(r)
    ensures t.(cpu := c.cpu) == c
    ensures CpuConsistent(t)
    ensures c.status == Running && 0.0 <= c.cpu <= 100.0 ==> -10.0 <= t.cpu - c.cpu <= 10.0
  {
    JitterBounds(r, 20.0);
    ClampedStepIsSmall(0.0, 100.0, c.cpu, Jitter(r, 20.0), 10.0);
    c.(cpu := if c.status == Running then Clamp(0.0, 100.0, c.cpu + Jitter(r, 20.0)) else 0.0)
  }

  /** The container list after a tick, one random value per container: only
      CPU changes, and afterwards every container satisfies the CPU
      invariant whatever held before. */
  function TickContainers(cs: seq<Container>, rs: seq<real>): (ts: seq<Container>)
    requires |rs| == |cs| && forall i :: 0 <= i < |rs| ==> IsRandom(rs[i])
    ensures |ts| == |cs|
    ensures forall i :: 0 <= i < |cs| ==> ts[i].(cpu := cs[i].cpu) == cs[i]
    ensures forall i :: 0 <= i < |cs| ==> CpuConsistent(ts[i])
    ensures forall i :: 0 <= i < |cs| && cs[i].status == Running && 0.0 <= cs[i].cpu <= 100.0 ==>
      -10.0 <= ts[i].cpu - cs[i].cpu <= 10.0
  {
    if cs == [] then []
    else [TickContainer(cs[0], rs[0])] + TickContainers(cs[1..], rs[1..])
  }

  /** The dashboard's state for the session. */
  class Dashboard {
    var system: SystemData
    var containers: seq<Container>

    /** Usage readings stay in [10, 90], network rates are non-negative, and
        every container satisfies the CPU invariant. */
    ghost predicate Valid()
      reads this
    {
      && 10.0 <= system.cpu.usage <= 90.0
      && 10.0 <= system.memory.usage <= 90.0
      && system.network.inRate >= 0.0 && system.network.outRate >= 0.0
      && forall c :: c in containers ==> CpuConsistent(c)
    }

    constructor ()
      ensures Valid()
      ensures system == SeedSystem && containers == SeedContainers
    {
      system := SeedSystem;
      containers := SeedContainers;
    }

    /** One tick of the update timer. It needs no invariant beforehand and
        establishes the invariant afterwards. */
    method Tick(rCpu: real, rMemory: real, rIn: real, rOut: real, rs: seq<real>)
      requires IsRandom(rCpu) && IsRandom(rMemory) && IsRandom(rIn) && IsRandom(rOut)
      requires |rs| == |containers| && forall i :: 0 <= i < |rs| ==> IsRandom(rs[i])
      modifies this
      ensures Valid()
      ensures system == TickSystem(old(system), rCpu, rMemory, rIn, rOut)
      ensures containers == TickContainers(old(containers), rs)
    {
      system := TickSystem(system, rCpu, rMemory, rIn, rOut);
      containers := TickContainers(containers, rs);
      assert forall c :: c in containers ==> CpuConsistent(c) by {
        forall c | c in containers ensures CpuConsistent(c) {
          var i :| 0 <= i < |containers| && containers[i] == c;
        }
      }
    }

    /** The completion of a start, stop or restart on the container with the
        given id. */
    method HandleContainerAction(id: string, action: string)
      requires Valid()
      modifies this
      ensures Valid()
      ensures containers == ApplyAction(old(containers), id, action)
      ensures system == old(system)
    {
      containers := ApplyAction(containers, id, action);
    }

    /** The "running / total" figure in the header. */
    function RunningContainers(): (n: nat)
      reads this
      ensures n <= |containers|
      ensures n == 0 <==> forall c :: c in containers ==> c.status != Running
    {
      SummaryCounts(containers);
      var running := Filter(containers, IsRunning);
      assert running != [] ==> running[0] in running;
      RunningCount(containers)
    }
  }
}
