/** The container list of the monitoring dashboard: the effect of the
    start / stop / restart actions, the summary counts shown above the grid,
    and which actions the grid offers for each status. */
module ContainerGrid {
  import opened Seqs

  datatype Status = Running | Stopped | Error

  datatype Container = Container(
    id: string,
    name: string,
    status: Status,
    cpu: real,
    memory: real,
    uptime: string,
    restarts: nat,
    image: string)

  predicate IsRunning(c: Container) { c.status == Running }

  predicate IsStopped(c: Container) { c.status == Stopped }

  predicate IsFailed(c: Container) { c.status == Error }

  /** The per-container invariant the dashboard keeps: CPU is a percentage,
      and a container that is not running uses none. */
  predicate CpuConsistent(c: Container) {
    0.0 <= c.cpu <= 100.0 && (c.status != Running ==> c.cpu == 0.0)
  }

  /** The new record for the container an action targets. Each recognised
      action rewrites a fixed set of fields; any other action string leaves
      the container as it was. */
  function Transition(c: Container, action: string): (r: Container)
    ensures r.id == c.id && r.name == c.name && r.image == c.image
    ensures action == "start" ==>
      r.status == Running && r.uptime == "0m" &&
      r.cpu == c.cpu && r.memory == c.memory && r.restarts == c.restarts
    ensures action == "stop" ==>
      r.status == Stopped && r.cpu == 0.0 && r.memory == 0.0 && r.uptime == "0m" &&
      r.restarts == c.restarts
    ensures action == "restart" ==>
      r.status == Running && r.restarts == c.restarts + 1 && r.uptime == "0m" &&
      r.cpu == c.cpu && r.memory == c.memory
    ensures action != "start" && action != "stop" && action != "restart" ==> r == c
    ensures r.status == Error ==> c.status == Error
    ensures CpuConsistent(c) ==> CpuConsistent(r)
  {
    if action == "start" then c.(status := Running, uptime := "0m")
    else if action == "stop" then c.(status := Stopped, cpu := 0.0, memory := 0.0, uptime := "0m")
    else if action == "restart" then c.(status := Running, restarts := c.restarts + 1, uptime := "0m")
    else c
  }

  /** The whole list after an action on the container with the given id:
      only containers with that id change, and the list keeps its length and
      order. */
  function ApplyAction(cs: seq<Container>, id: string, action: string): (r: seq<Container>)
    ensures |r| == |cs|
    ensures forall i :: 0 <= i < |cs| && cs[i].id != id ==> r[i] == cs[i]
    ensures forall i :: 0 <= i < |cs| && cs[i].id == id ==> r[i] == Transition(cs[i], action)
    ensures (forall c :: c in cs ==> CpuConsistent(c)) ==> forall c :: c in r ==> CpuConsistent(c)
  {
    if cs == [] then []
    else [if cs[0].id == id then Transition(cs[0], action) else cs[0]] + ApplyAction(cs[1..], id, action)
  }

  /** An action string the switch does not recognise leaves the list unchanged. */
  lemma UnknownActionIsNoOp(cs: seq<Container>, id: string, action: string)
    requires action != "start" && action != "stop" && action != "restart"
    ensures ApplyAction(cs, id, action) == cs
  {
  }

  /** An id that names no container leaves the list unchanged. */
  lemma UnknownIdIsNoOp(cs: seq<Container>, id: string, action: string)
    requires forall c :: c in cs ==> c.id != id
    ensures ApplyAction(cs, id, action) == cs
  {
    var r := ApplyAction(cs, id, action);
    forall i | 0 <= i < |cs| ensures r[i] == cs[i] {
      assert cs[i] in cs;
    }
  }

  function HasId(id: string): Container -> bool {
    (c: Container) => c.id == id
  }

  // Summary counts shown above the grid.

  function RunningCount(cs: seq<Container>): nat { |Filter(cs, IsRunning)| }

  function StoppedCount(cs: seq<Container>): nat { |Filter(cs, IsStopped)| }

  function ErrorCount(cs: seq<Container>): nat { |Filter(cs, IsFailed)| }

  /** The total restart count shown above the grid: the sum of every
      container's restarts. */
  function TotalRestarts(cs: seq<Container>): nat {
    if cs == [] then 0 else cs[0].restarts + TotalRestarts(cs[1..])
  }

  /** Every container is counted in exactly one of running, stopped and
      error, so running + stopped never exceeds the total: a container in
      the error state is counted in neither. */
  lemma {:induction false} SummaryCounts(cs: seq<Container>)
    ensures RunningCount(cs) + StoppedCount(cs) + ErrorCount(cs) == |cs|
    ensures RunningCount(cs) + StoppedCount(cs) <= |cs|
    ensures RunningCount(cs) + StoppedCount(cs) == |cs| <==> ErrorCount(cs) == 0
  {
    if cs != [] {
      SummaryCounts(cs[1..]);
    }
  }

  /** The total restart count grows by exactly the number of containers a
      restart targets, and no action ever lowers it. */
  lemma {:induction false} RestartsNeverDecrease(cs: seq<Container>, id: string, action: string)
    ensures TotalRestarts(ApplyAction(cs, id, action)) ==
      TotalRestarts(cs) + (if action == "restart" then |Filter(cs, HasId(id))| else 0)
    ensures TotalRestarts(ApplyAction(cs, id, action)) >= TotalRestarts(cs)
  {
    if cs != [] {
      RestartsNeverDecrease(cs[1..], id, action);
      assert ApplyAction(cs, id, action)[1..] == ApplyAction(cs[1..], id, action);
    }
  }

  /** The action buttons shown on a container's card: a running container
      offers stop and restart, any other status offers start. */
  function OfferedActions(s: Status): (r: seq<string>)
    ensures "start" in r <==> s != Running
    ensures "stop" in r <==> s == Running
    ensures "restart" in r <==> s == Running
    ensures forall a :: a in r ==> a == "start" || a == "stop" || a == "restart"
  {
    if s == Running then ["stop", "restart"] else ["start"]
  }

  /** Every offered action takes effect: it changes the container, and
      afterwards the card offers start exactly when the action was stop. */
  lemma OfferedActionsTakeEffect(c: Container, action: string)
    requires action in OfferedActions(c.status)
    ensures Transition(c, action) != c
    ensures Transition(c, action).status == Running <==> action != "stop"
    ensures "start" in OfferedActions(Transition(c, action).status) <==> action == "stop"
  {
  }
}
