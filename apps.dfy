/** The apps page: the fleet's service health, grouped by machine, with a
    status word and colour per machine card and the overall health
    percentage. */
module Apps {
  import opened Text

  datatype Status = Up | Down | Slow

  /** One service of the health report. */
  datatype ServiceHealth = ServiceHealth(
    name: string, machine: string, category: string, status: Status, latency: nat, detail: Option<string>)

  /** The report's summary; `health` is the fraction of services up. */
  datatype HealthSummary = HealthSummary(up: nat, total: nat, health: real)
  datatype HealthData = HealthData(ts: string, summary: HealthSummary, services: seq<ServiceHealth>)

  /** The cards, in `MACHINE_META` order. */
  const MetaKeys: seq<string> := ["JL1", "JL2", "JLa", "JLb", "ngrok"]

  // --------------------------------------------------------------- grouping

  /** The services on `machine`, in report order. */
  function ForMachine(services: seq<ServiceHealth>, machine: string): seq<ServiceHealth> {
    if services == [] then []
    else
      var last := services[|services| - 1];
      ForMachine(services[..|services| - 1], machine) + (if last.machine == machine then [last] else [])
  }

  /** A group holds exactly the services of its machine. */
  lemma {:induction false} ForMachineMembers(services: seq<ServiceHealth>, machine: string)
    ensures forall s :: s in ForMachine(services, machine) <==> s in services && s.machine == machine
  {
    if services != [] {
      var front := services[..|services| - 1];
      ForMachineMembers(front, machine);
      assert services == front + [services[|services| - 1]];
    }
  }

  /** Grouping a concatenation groups each part and keeps the parts in order,
      so a group lists its services in their report order. */
  lemma {:induction false} ForMachineAppend(a: seq<ServiceHealth>, b: seq<ServiceHealth>, machine: string)
    ensures ForMachine(a + b, machine) == ForMachine(a, machine) + ForMachine(b, machine)
    decreases |b|
  {
    if b == [] {
      assert a + b == a;
    } else {
      var front := b[..|b| - 1];
      ForMachineAppend(a, front, machine);
      assert (a + b)[..|a + b| - 1] == a + front;
      assert (a + b)[|a + b| - 1] == b[|b| - 1];
    }
  }

  /** One more service extends its own machine's group only. */
  lemma ForMachineSnoc(services: seq<ServiceHealth>, s: ServiceHealth)
    ensures forall k :: ForMachine(services + [s], k) == ForMachine(services, k) + (if s.machine == k then [s] else [])
  {
    assert (services + [s])[..|services|] == services;
  }

  /** A machine no service runs on has an empty group. */
  lemma {:induction false} ForMachineNone(services: seq<ServiceHealth>, machine: string)
    requires forall i :: 0 <= i < |services| ==> services[i].machine != machine
    ensures ForMachine(services, machine) == []
  {
    if services != [] {
      ForMachineNone(services[..|services| - 1], machine);
    }
  }

  /** The `reduce` that pushes each service onto its machine's list, creating
      the list on first sight. The accumulator is a plain object, so a machine
      named after an `Object.prototype` member finds that member (a function,
      or the prototype itself) already there: it is truthy, has no `push`, and
      the render throws (`None`). Otherwise there is a list exactly for each
      machine that runs a service, holding its services in report order. */
  method GroupByMachine(services: seq<ServiceHealth>) returns (grouped: Option<map<string, seq<ServiceHealth>>>)
    ensures grouped.None? <==> exists i :: 0 <= i < |services| && services[i].machine in ObjectPrototypeKeys
    ensures grouped.Some? ==> forall k :: k in grouped.value <==> exists i :: 0 <= i < |services| && services[i].machine == k
    ensures grouped.Some? ==> forall k :: k in grouped.value ==> grouped.value[k] == ForMachine(services, k) && grouped.value[k] != []
  {
    var acc: map<string, seq<ServiceHealth>> := map[];
    var i := 0;
    while i < |services|
      invariant 0 <= i <= |services|
      invariant forall j :: 0 <= j < i ==> services[j].machine !in ObjectPrototypeKeys
      invariant forall k :: k in acc <==> exists j :: 0 <= j < i && services[j].machine == k
      invariant forall k :: k in acc ==> acc[k] == ForMachine(services[..i], k) && acc[k] != []
    {
      var svc := services[i];
      if svc.machine in ObjectPrototypeKeys {
        return None;
      }
      if svc.machine !in acc {
        ForMachineNone(services[..i], svc.machine);
      }
      ForMachineSnoc(services[..i], svc);
      assert services[..i + 1] == services[..i] + [svc];
      var bucket := if svc.machine in acc then acc[svc.machine] else [];
      acc := acc[svc.machine := bucket + [svc]];
      i := i + 1;
    }
    assert services[..i] == services;
    grouped := Some(acc);
  }

  /** `data?.services.reduce(…) || {}`: no report means no groups; a report
      groups as `GroupByMachine` does, throwing on an inherited machine name. */
  method Grouped(data: Option<HealthData>) returns (grouped: Option<map<string, seq<ServiceHealth>>>)
    ensures data.None? ==> grouped == Some(map[])
    ensures data.Some? ==> (grouped.None? <==>
      exists i :: 0 <= i < |data.value.services| && data.value.services[i].machine in ObjectPrototypeKeys)
    ensures data.Some? && grouped.Some? ==> forall k :: k in grouped.value <==>
      exists i :: 0 <= i < |data.value.services| && data.value.services[i].machine == k
    ensures data.Some? && grouped.Some? ==> forall k :: k in grouped.value ==> grouped.value[k] == ForMachine(data.value.services, k)
  {
    if data.None? {
      return Some(map[]);
    }
    grouped := GroupByMachine(data.value.services);
  }

  // ----------------------------------------------------------- card status

  predicate AllUp(group: seq<ServiceHealth>) {
    forall i :: 0 <= i < |group| ==> group[i].status == Up
  }

  predicate AnyDown(group: seq<ServiceHealth>) {
    exists i :: 0 <= i < |group| && group[i].status == Down
  }

  /** The card's status word; the first case that applies wins. */
  function MachineLabel(group: Option<seq<ServiceHealth>>): string {
    if group.None? then "No services"
    else if AllUp(group.value) then "All systems go"
    else if AnyDown(group.value) then "Degraded"
    else "Slow"
  }

  /** The colour of the card's dot and word, decided in the same order. */
  function MachineColor(group: Option<seq<ServiceHealth>>): string {
    if group.None? then "var(--text-tertiary)"
    else if AllUp(group.value) then "var(--green)"
    else if AnyDown(group.value) then "#ff4444"
    else "#ffaa00"
  }

  /** The colour follows the word: one colour per word. */
  lemma ColorFollowsLabel(group: Option<seq<ServiceHealth>>)
    ensures MachineLabel(group) == "No services" <==> MachineColor(group) == "var(--text-tertiary)"
    ensures MachineLabel(group) == "All systems go" <==> MachineColor(group) == "var(--green)"
    ensures MachineLabel(group) == "Degraded" <==> MachineColor(group) == "#ff4444"
    ensures MachineLabel(group) == "Slow" <==> MachineColor(group) == "#ffaa00"
  {
  }

  /** "Slow" means exactly: a non-empty group with nothing down and some
      service slow. */
  lemma SlowMeans(group: Option<seq<ServiceHealth>>)
    ensures MachineLabel(group) == "Slow" <==>
      group.Some? && |group.value| > 0
      && (forall i :: 0 <= i < |group.value| ==> group.value[i].status != Down)
      && (exists i :: 0 <= i < |group.value| && group.value[i].status == Slow)
  {
    if MachineLabel(group) == "Slow" {
      var i :| 0 <= i < |group.value| && group.value[i].status != Up;
      assert group.value[i].status == Slow;
    }
  }

  /** "Degraded" means some service is down. */
  lemma DegradedMeans(group: Option<seq<ServiceHealth>>)
    ensures MachineLabel(group) == "Degraded" <==>
      group.Some? && exists i :: 0 <= i < |group.value| && group.value[i].status == Down
  {
    if group.Some? && AnyDown(group.value) {
      var i :| 0 <= i < |group.value| && group.value[i].status == Down;
      assert group.value[i].status != Up;
    }
  }

  /** The text of a card without services. */
  function EmptyGroupText(key: string): (t: string)
    ensures key == "JLb" <==> t == "Awaiting deployment — SSH configuration pending"
    ensures key != "JLb" <==> t == "No services registered"
  {
    if key == "JLb" then "Awaiting deployment — SSH configuration pending" else "No services registered"
  }

  /** The colour of a service's dot: one colour per status. */
  function ServiceDotColor(s: Status): (c: string)
    ensures c == "var(--green)" <==> s == Up
    ensures c == "#ffaa00" <==> s == Slow
    ensures c == "#ff4444" <==> s == Down
  {
    match s
    case Up => "var(--green)"
    case Slow => "#ffaa00"
    case Down => "#ff4444"
  }

  /** A machine running one service shows that service's dot colour on its
      card. */
  lemma SingleServiceCard(s: ServiceHealth)
    ensures MachineColor(Some([s])) == ServiceDotColor(s.status)
  {
    assert [s][0] == s;
    if s.status != Up {
      assert !AllUp([s]);
    }
    if s.status == Down {
      assert AnyDown([s]);
    }
  }

  // ----------------------------------------------------------------- health

  /** `Math.round(x)`: the nearest integer, halves rounded up. */
  function Round(x: real): int {
    (x + 0.5).Floor
  }

  /** `data ? Math.round(data.summary.health * 100) : 0`. */
  function HealthPct(data: Option<HealthData>): int {
    if data.None? then 0 else Round(data.value.summary.health * 100.0)
  }

  /** Without a report the percentage is 0; with a health fraction between 0
      and 1 it is a percentage within half a point of the fraction. */
  lemma HealthPctBounds(data: Option<HealthData>)
    ensures data.None? ==> HealthPct(data) == 0
    ensures data.Some? && 0.0 <= data.value.summary.health <= 1.0 ==>
      0 <= HealthPct(data) <= 100
      && data.value.summary.health * 100.0 - 0.5 < HealthPct(data) as real <= data.value.summary.health * 100.0 + 0.5
  {
  }
}
