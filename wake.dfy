/** The machine diagnoser behind `/api/wake`: it probes a machine's services
    and its host, classifies the outcomes, and turns them into a diagnosis
    sentence with ordered fix steps. The network is a parameter: `Network`
    says what the host ping and each service probe would observe. */
module Wake {
  import opened Text

  datatype Service = Service(name: string, port: nat, endpoint: string, startCmd: Option<string>)

  datatype Machine = Machine(ip: string, services: seq<Service>)

  /** The fixed fleet the route knows about. */
  const MachineInfo: map<string, Machine> := map[
    "JL1" := Machine("192.168.1.169", [
      Service("FastAPI", 8000, "/health", Some("cd ~/klausimi-backend && uvicorn src.api.main:app --host 0.0.0.0 --port 8000")),
      Service("Ollama", 11434, "/api/tags", Some("ollama serve")),
      Service("Klaus Chat", 3000, "/", Some("cd ~/Desktop/M1transfer/klaus-chat && npm run dev")),
      Service("Memory Sync", 8766, "/", Some("python3 ~/.axe/scripts/memory_sync_ws.py"))
    ]),
    "JL2" := Machine("192.168.1.147", [
      Service("Forge Gateway", 8420, "/health", Some("cd ~/forge-gateway && uvicorn main:app --host 0.0.0.0 --port 8420")),
      Service("Ollama", 11434, "/api/tags", Some("ollama serve"))
    ]),
    "JLa" := Machine("192.168.1.148", [
      Service("Chat Centre", 8081, "/health", Some("cd ~/chat-centre && python3 server.py"))
    ]),
    "JLb" := Machine("192.168.1.149", [])
  ]

  /** Timeouts the route arms on its requests, in milliseconds. */
  const ProbeTimeoutMs: nat := 4000
  const PingTimeoutMs: nat := 3000

  // ---------------------------------------------------------------- probing

  /** What a service's health endpoint answered: a JSON body with an optional
      `status` text and an optional `models` array (given by its length), or
      a body that does not parse as a JSON object. */
  datatype ProbeBody = Unparsable | Parsed(status: Option<string>, models: Option<nat>)

  /** What one probe observed: an HTTP answer, or a failed fetch (refused,
      unresolvable or aborted by the 4 s timer), each with the elapsed time. */
  datatype ProbeOutcome =
    | Answered(ok: bool, latency: nat, body: ProbeBody)
    | Failed(latency: nat)

  datatype Probe = Probe(up: bool, latency: nat, detail: Option<string>)

  /** `d.status || (d.models ? `${d.models.length} models` : undefined)`. */
  function ProbeDetail(b: ProbeBody): Option<string> {
    match b
    case Unparsable => None
    case Parsed(status, models) =>
      if Truthy(status) then status
      else if models.Some? then Some(NatToString(models.value) + " models")
      else None
  }

  /** `probeService`: a service is up exactly when its endpoint answered with
      a 2xx status; a failed fetch is down and carries no detail; a detail,
      when there is one, is never empty. */
  function ProbeService(o: ProbeOutcome): (p: Probe)
    ensures p.up <==> o.Answered? && o.ok
    ensures p.latency == o.latency
    ensures o.Failed? ==> p.detail == None
    ensures p.detail.Some? ==> p.detail.value != ""
  {
    match o
    case Answered(ok, latency, body) => Probe(ok, latency, ProbeDetail(body))
    case Failed(latency) => Probe(false, latency, None)
  }

  /** What the fetch of `http://<ip>:80/` observed: a response, or a
      rejection, which is an `AbortError` when the 3 s timer fired. */
  datatype PingOutcome = Responded | Rejected(aborted: bool)

  /** `pingHost`: any answer, and any failure other than the abort (such as
      a refused connection), counts as reachable. */
  function PingHost(o: PingOutcome): bool {
    match o
    case Responded => true
    case Rejected(aborted) => !aborted
  }

  /** The network as the route sees it: the ping of a host and the probe of
      `http://<ip>:<port><endpoint>`. */
  datatype Network = Network(ping: string -> PingOutcome, probe: (string, nat, string) -> ProbeOutcome)

  // -------------------------------------------------------------- diagnosis

  datatype ServiceResult = ServiceResult(
    name: string, port: nat, up: bool, latency: nat, detail: Option<string>, startCmd: Option<string>)

  /** The `Promise.all(machine.services.map(...))` of the GET handler. */
  function ServiceResults(m: Machine, net: Network): (rs: seq<ServiceResult>)
    ensures |rs| == |m.services|
  {
    seq(|m.services|, i requires 0 <= i < |m.services| =>
      var svc := m.services[i];
      var p := ProbeService(net.probe(m.ip, svc.port, svc.endpoint));
      ServiceResult(svc.name, svc.port, p.up, p.latency, p.detail, svc.startCmd))
  }

  /** `serviceResults.every((s) => s.up)`. */
  predicate AllUp(rs: seq<ServiceResult>) {
    forall i :: 0 <= i < |rs| ==> rs[i].up
  }

  /** `serviceResults.some((s) => s.up)`. */
  predicate AnyUp(rs: seq<ServiceResult>) {
    exists i :: 0 <= i < |rs| && rs[i].up
  }

  /** `serviceResults.filter((s) => !s.up)`. */
  function Down(rs: seq<ServiceResult>): seq<ServiceResult> {
    if rs == [] then []
    else if rs[0].up then Down(rs[1..])
    else [rs[0]] + Down(rs[1..])
  }

  // The fixed phrases of the diagnosis texts and steps.
  const StartPrefix := "Start "
  const CheckPortPrefix := "Check port "
  const SshPrefix := "SSH into "
  const UnreachablePhrase :=
    " is unreachable on the network. The machine may be powered off, sleeping, or disconnected from WiFi."
  const PowerStepPrefix := "Check that "
  const PowerStepSuffix := ") is powered on"
  const WifiStep := "Verify it's connected to the same WiFi network"
  const WakeOnLanStep := "Try waking the machine physically or via Wake-on-LAN"
  const EnergySaverStep := "Check System Preferences > Energy Saver to prevent auto-sleep"
  const NoneRespondingPhrase := " is on the network but no services are responding. Services may need to be started."
  const OnlineButPhrase := " is online but "
  const NoServicesPhrase := " has no configured services yet."
  const AwaitingDeploymentStep := "This machine is awaiting deployment"
  const OperationalPhrase := " is fully operational. All "
  const RespondingPhrase := " services responding."

  /** The fix step for a service that is not responding. */
  function StartStep(s: ServiceResult): string {
    StartPrefix + s.name + ": " + Or(s.startCmd, CheckPortPrefix + NatToString(s.port))
  }

  /** `rs.map(StartStep)`. */
  function StartSteps(rs: seq<ServiceResult>): seq<string> {
    if rs == [] then [] else [StartStep(rs[0])] + StartSteps(rs[1..])
  }

  function SshStep(machineId: string, ip: string): string {
    SshPrefix + machineId + ": ssh " + ip
  }

  function UnreachableText(machineId: string): string {
    machineId + UnreachablePhrase
  }

  function UnreachableSteps(machineId: string, ip: string): seq<string> {
    [ PowerStepPrefix + machineId + " (" + ip + PowerStepSuffix, WifiStep, WakeOnLanStep, EnergySaverStep ]
  }

  function NoneRespondingText(machineId: string): string {
    machineId + NoneRespondingPhrase
  }

  /** The sentence for `k` down services, pluralised on `k > 1`. */
  function SomeDownText(machineId: string, k: nat): string {
    machineId + OnlineButPhrase + NatToString(k) + " service" + (if k > 1 then "s are" else " is") + " down."
  }

  function NoServicesText(machineId: string): string {
    machineId + NoServicesPhrase
  }

  function OperationalText(machineId: string, n: nat): string {
    machineId + OperationalPhrase + NatToString(n) + RespondingPhrase
  }

  datatype Diagnosis = Diagnosis(text: string, fixSteps: seq<string>)

  /** Which branch of the GET handler's first-match chain applies. */
  datatype Verdict = Unreachable | NoneResponding | SomeDown | NoServices | Operational

  /** The chain's conditions, tested in the handler's order. */
  function VerdictOf(hostReachable: bool, rs: seq<ServiceResult>): Verdict {
    if !hostReachable && |rs| > 0 then Unreachable
    else if !AnyUp(rs) && |rs| > 0 then NoneResponding
    else if !AllUp(rs) then SomeDown
    else if |rs| == 0 then NoServices
    else Operational
  }

  /** The first-match chain of the GET handler. */
  function Diagnose(machineId: string, ip: string, hostReachable: bool, rs: seq<ServiceResult>): Diagnosis {
    match VerdictOf(hostReachable, rs)
    case Unreachable => Diagnosis(UnreachableText(machineId), UnreachableSteps(machineId, ip))
    case NoneResponding => Diagnosis(NoneRespondingText(machineId), [SshStep(machineId, ip)] + StartSteps(rs))
    case SomeDown =>
      var down := Down(rs);
      Diagnosis(SomeDownText(machineId, |down|), [SshStep(machineId, ip)] + StartSteps(down))
    case NoServices => Diagnosis(NoServicesText(machineId), [AwaitingDeploymentStep])
    case Operational => Diagnosis(OperationalText(machineId, |rs|), [])
  }

  /** The handler's own construction of the diagnosis: each branch assigns
      the sentence and the steps, and the two middle branches then put the
      SSH step in front of the "Start" steps. */
  method BuildDiagnosis(machineId: string, ip: string, hostReachable: bool, rs: seq<ServiceResult>)
    returns (diagnosis: string, fixSteps: seq<string>)
    ensures Diagnosis(diagnosis, fixSteps) == Diagnose(machineId, ip, hostReachable, rs)
  {
    var allUp := AllUp(rs);
    var anyUp := AnyUp(rs);
    if !hostReachable && |rs| > 0 {
      diagnosis := UnreachableText(machineId);
      fixSteps := UnreachableSteps(machineId, ip);
    } else if !anyUp && |rs| > 0 {
      diagnosis := NoneRespondingText(machineId);
      fixSteps := StartSteps(rs);
      fixSteps := [SshStep(machineId, ip)] + fixSteps;
    } else if !allUp {
      var down := Down(rs);
      diagnosis := SomeDownText(machineId, |down|);
      fixSteps := StartSteps(down);
      fixSteps := [SshStep(machineId, ip)] + fixSteps;
    } else if |rs| == 0 {
      diagnosis := NoServicesText(machineId);
      fixSteps := [AwaitingDeploymentStep];
    } else {
      diagnosis := OperationalText(machineId, |rs|);
      fixSteps := [];
    }
  }

  // ---------------------------------------------------------------- handlers

  /** A guard the handlers pass: a non-empty machine id the fleet knows. */
  predicate KnownMachine(machineId: Option<string>) {
    Truthy(machineId) && machineId.value in MachineInfo
  }

  datatype GetReply =
    | GetRejected(error: string)
    | Report(machine: string, ip: string, hostReachable: bool, services: seq<ServiceResult>,
             allUp: bool, diagnosis: string, fixSteps: seq<string>)

  function GetStatus(r: GetReply): nat {
    if r.GetRejected? then 400 else 200
  }

  /** The report the GET handler builds for a machine it knows. */
  function MachineReport(machineId: string, m: Machine, net: Network): GetReply {
    var hostReachable := PingHost(net.ping(m.ip));
    var rs := ServiceResults(m, net);
    var d := Diagnose(machineId, m.ip, hostReachable, rs);
    Report(machineId, m.ip, hostReachable, rs, AllUp(rs), d.text, d.fixSteps)
  }

  /** `GET /api/wake?machine=<id>`. */
  function WakeGet(machineId: Option<string>, net: Network): GetReply {
    if !KnownMachine(machineId) then GetRejected("Unknown machine")
    else MachineReport(machineId.value, MachineInfo[machineId.value], net)
  }

  /** `machine.services.find((s) => s.name === name)`. */
  function FindService(services: seq<Service>, name: string): Option<Service> {
    if services == [] then None
    else if services[0].name == name then Some(services[0])
    else FindService(services[1..], name)
  }

  /** A service as reported by the all-services POST. */
  datatype Woken = Woken(name: string, up: bool, latency: nat, detail: Option<string>, startCmd: Option<string>)

  datatype PostReply =
    | PostRejected(error: string)
    | ServiceReply(machine: string, service: string, up: bool, latency: nat, detail: Option<string>,
                   startCmd: Option<string>, message: string)
    | MachineReply(machine: string, services: seq<Woken>, allUp: bool)

  function PostStatus(r: PostReply): nat {
    if r.PostRejected? then 400 else 200
  }

  /** A value spliced into a template literal: `undefined` prints as such. */
  function Template(s: Option<string>): string {
    if s.Some? then s.value else "undefined"
  }

  /** The POST branch for one named service. */
  function WakeOne(machineId: string, m: Machine, name: string, net: Network): PostReply {
    match FindService(m.services, name)
    case None => PostRejected("Unknown service")
    case Some(svc) =>
      var p := ProbeService(net.probe(m.ip, svc.port, svc.endpoint));
      ServiceReply(machineId, svc.name, p.up, p.latency, p.detail,
        if p.up then None else svc.startCmd,
        if p.up then svc.name + " is responding"
        else svc.name + " is not responding. Start it with: " + Template(svc.startCmd))
  }

  function WakeService(svc: Service, p: Probe): Woken {
    Woken(svc.name, p.up, p.latency, p.detail, if p.up then None else svc.startCmd)
  }

  /** The POST branch that probes every service of the machine. */
  function WakeAll(machineId: string, m: Machine, net: Network): PostReply {
    var ws := seq(|m.services|, i requires 0 <= i < |m.services| =>
      WakeService(m.services[i], ProbeService(net.probe(m.ip, m.services[i].port, m.services[i].endpoint))));
    MachineReply(machineId, ws, forall i :: 0 <= i < |ws| ==> ws[i].up)
  }

  /** `POST /api/wake {machine, service?}`. */
  function WakePost(machineId: Option<string>, service: Option<string>, net: Network): PostReply {
    if !KnownMachine(machineId) then PostRejected("Unknown machine")
    else if Truthy(service) then WakeOne(machineId.value, MachineInfo[machineId.value], service.value, net)
    else WakeAll(machineId.value, MachineInfo[machineId.value], net)
  }

  // ------------------------------------------------------------ properties

  /** The indices of the services that are not up. */
  function DownIndices(rs: seq<ServiceResult>): set<int> {
    set i | 0 <= i < |rs| && !rs[i].up
  }

  /** Filtering a list with one more service at the end. */
  lemma {:induction false} DownSnoc(rs: seq<ServiceResult>, x: ServiceResult)
    ensures Down(rs + [x]) == Down(rs) + (if x.up then [] else [x])
  {
    if rs != [] {
      assert (rs + [x])[1..] == rs[1..] + [x];
      DownSnoc(rs[1..], x);
    }
  }

  /** `Down` has one entry per service that is not up. */
  lemma {:induction false} DownCount(rs: seq<ServiceResult>)
    ensures |Down(rs)| == |DownIndices(rs)|
    decreases |rs|
  {
    if rs != [] {
      var n := |rs| - 1;
      var front := rs[..n];
      DownCount(front);
      assert rs == front + [rs[n]];
      DownSnoc(front, rs[n]);
      assert forall i :: 0 <= i < n ==> rs[i] == front[i];
      if rs[n].up {
        assert DownIndices(rs) == DownIndices(front);
      } else {
        assert DownIndices(rs) == DownIndices(front) + {n};
      }
    }
  }

  /** `Down` holds exactly the services that are not up. */
  lemma {:induction false} DownMembers(rs: seq<ServiceResult>)
    ensures forall j :: 0 <= j < |Down(rs)| ==> !Down(rs)[j].up && Down(rs)[j] in rs
    ensures forall i :: 0 <= i < |rs| && !rs[i].up ==> rs[i] in Down(rs)
  {
    if rs != [] {
      var tail := rs[1..];
      DownMembers(tail);
      assert forall i :: 1 <= i < |rs| ==> rs[i] == tail[i - 1];
    }
  }

  /** `Down` is empty exactly when every service is up, is the whole list
      when none is, and is shorter than the list when one is up. */
  lemma {:induction false} DownExtremes(rs: seq<ServiceResult>)
    ensures Down(rs) == [] <==> AllUp(rs)
    ensures !AnyUp(rs) ==> Down(rs) == rs
    ensures AnyUp(rs) ==> |Down(rs)| < |rs|
    ensures |Down(rs)| <= |rs|
  {
    if rs != [] {
      var tail := rs[1..];
      DownExtremes(tail);
      if AnyUp(rs) && !rs[0].up {
        var k :| 0 <= k < |rs| && rs[k].up;
        assert tail[k - 1].up;
      }
      if !AllUp(rs) && rs[0].up {
        var k :| 0 <= k < |rs| && !rs[k].up;
        assert !tail[k - 1].up;
      }
      if !AnyUp(rs) {
        forall i | 0 <= i < |tail| ensures !tail[i].up {
          assert tail[i] == rs[i + 1];
        }
        assert [rs[0]] + tail == rs;
      }
    }
  }

  /** One "Start" step per service, in the services' order. */
  lemma {:induction false} StartStepsAt(rs: seq<ServiceResult>)
    ensures |StartSteps(rs)| == |rs|
    ensures forall i :: 0 <= i < |rs| ==> StartSteps(rs)[i] == StartStep(rs[i])
  {
    if rs != [] {
      StartStepsAt(rs[1..]);
    }
  }

  /** A "Start" step names the service and gives its start command when it
      has a non-empty one, and otherwise the port to check. */
  lemma StartStepText(s: ServiceResult)
    ensures Truthy(s.startCmd) ==> StartStep(s) == "Start " + s.name + ": " + s.startCmd.value
    ensures !Truthy(s.startCmd) ==> StartStep(s) == "Start " + s.name + ": Check port " + NatToString(s.port)
  {
  }

  /** An unreachable host with at least one service is diagnosed as
      unreachable with the four physical checks, whatever its services report. */
  lemma UnreachableWins(machineId: string, ip: string, rs: seq<ServiceResult>)
    requires |rs| > 0
    ensures Diagnose(machineId, ip, false, rs) == Diagnosis(UnreachableText(machineId), UnreachableSteps(machineId, ip))
    ensures |Diagnose(machineId, ip, false, rs).fixSteps| == 4
  {
  }

  /** A reachable host whose services all fail gets the SSH step followed by
      one "Start" step per service, in order: n + 1 steps. */
  lemma NoneRespondingSteps(machineId: string, ip: string, rs: seq<ServiceResult>)
    requires |rs| > 0 && forall i :: 0 <= i < |rs| ==> !rs[i].up
    ensures var d := Diagnose(machineId, ip, true, rs);
      && d.text == NoneRespondingText(machineId)
      && |d.fixSteps| == |rs| + 1
      && d.fixSteps[0] == SshStep(machineId, ip)
      && forall i :: 0 <= i < |rs| ==> d.fixSteps[i + 1] == StartStep(rs[i])
  {
    StartStepsAt(rs);
  }

  /** The down-count sentence reads "1 service is down" for one service and
      "k services are down" for more. */
  lemma SomeDownTextPlural(machineId: string, k: nat)
    requires k >= 1
    ensures SomeDownText(machineId, k)
      == machineId + " is online but " + NatToString(k) + (if k == 1 then " service is" else " services are") + " down."
  {
    if k == 1 {
      assert " service" + " is" == " service is";
    } else {
      assert " service" + "s are" == " services are";
    }
  }

  /** A reachable host with some but not all services up gets a sentence
      counting the k down services ("1 service is down", "k services are
      down") and the SSH step followed by one step per down service. */
  lemma SomeDownSteps(machineId: string, ip: string, rs: seq<ServiceResult>)
    requires AnyUp(rs) && !AllUp(rs)
    ensures var d, k := Diagnose(machineId, ip, true, rs), |Down(rs)|;
      && 1 <= k < |rs|
      && k == |DownIndices(rs)|
      && d.text == machineId + " is online but " + NatToString(k)
                   + (if k == 1 then " service is" else " services are") + " down."
      && |d.fixSteps| == k + 1
      && d.fixSteps[0] == SshStep(machineId, ip)
      && forall i :: 0 <= i < k ==> d.fixSteps[i + 1] == StartStep(Down(rs)[i])
  {
    DownExtremes(rs);
    DownCount(rs);
    StartStepsAt(Down(rs));
    SomeDownTextPlural(machineId, |Down(rs)|);
  }

  /** A machine without services counts as all up and is reported as awaiting
      deployment, even when its host is unreachable. */
  lemma NoServicesAwaitDeployment(machineId: string, ip: string, hostReachable: bool)
    ensures AllUp([]) && !AnyUp([])
    ensures Diagnose(machineId, ip, hostReachable, []) == Diagnosis(NoServicesText(machineId), [AwaitingDeploymentStep])
  {
  }

  /** The fix steps are empty exactly when the host is reachable and all of
      its (at least one) services are up, and then the machine is reported
      fully operational with its service count. */
  lemma {:induction false} EmptyStepsIffOperational(machineId: string, ip: string, hostReachable: bool, rs: seq<ServiceResult>)
    ensures Diagnose(machineId, ip, hostReachable, rs).fixSteps == [] <==> hostReachable && |rs| > 0 && AllUp(rs)
    ensures hostReachable && |rs| > 0 && AllUp(rs) ==>
      Diagnose(machineId, ip, hostReachable, rs).text == OperationalText(machineId, |rs|)
  {
    if |rs| > 0 && AllUp(rs) {
      assert rs[0].up;
    }
    OnlyOperationalHasNoSteps(machineId, ip, hostReachable, rs);
  }

  /** Every branch but the operational one lists at least one step. */
  lemma OnlyOperationalHasNoSteps(machineId: string, ip: string, hostReachable: bool, rs: seq<ServiceResult>)
    ensures Diagnose(machineId, ip, hostReachable, rs).fixSteps == [] <==> VerdictOf(hostReachable, rs) == Operational
  {
  }

  lemma KnownIdsNonEmpty()
    ensures forall id :: id in MachineInfo ==> id != ""
  {
  }

  /** Every service the fleet configures carries a non-empty start command. */
  lemma ConfiguredStartCommands(machineId: string)
    requires machineId in MachineInfo
    ensures forall i :: 0 <= i < |MachineInfo[machineId].services| ==>
      Truthy(MachineInfo[machineId].services[i].startCmd)
  {
  }

  /** The service results follow the machine's services one for one and in
      order, each with that service's name, port and start command and its
      probe's verdict. */
  lemma ServiceResultsAt(m: Machine, net: Network)
    ensures var rs := ServiceResults(m, net);
      forall i :: 0 <= i < |m.services| ==>
        && rs[i].name == m.services[i].name
        && rs[i].port == m.services[i].port
        && rs[i].startCmd == m.services[i].startCmd
        && rs[i].up == ProbeService(net.probe(m.ip, m.services[i].port, m.services[i].endpoint)).up
  {
  }

  /** A report names the machine and carries its results. */
  lemma MachineReportShape(machineId: string, m: Machine, net: Network)
    ensures MachineReport(machineId, m, net).Report?
    ensures MachineReport(machineId, m, net).machine == machineId
    ensures MachineReport(machineId, m, net).ip == m.ip
    ensures MachineReport(machineId, m, net).services == ServiceResults(m, net)
  {
  }

  /** `allUp` is the conjunction of the services' verdicts, and the host
      counts as reachable unless the ping was aborted. */
  lemma MachineReportVerdicts(machineId: string, m: Machine, net: Network)
    ensures MachineReport(machineId, m, net).Report?
    ensures MachineReport(machineId, m, net).allUp <==>
      forall i :: 0 <= i < |m.services| ==> ServiceResults(m, net)[i].up
    ensures MachineReport(machineId, m, net).hostReachable <==> net.ping(m.ip) != Rejected(true)
  {
    var r := MachineReport(machineId, m, net);
    var rs := ServiceResults(m, net);
    assert r.allUp == AllUp(rs);
    assert r.hostReachable == PingHost(net.ping(m.ip));
  }

  /** The report's diagnosis is the first-match chain over exactly the
      report's own results and reachability. */
  lemma MachineReportDiagnosis(machineId: string, m: Machine, net: Network)
    ensures var r := MachineReport(machineId, m, net);
      r.Report? && Diagnosis(r.diagnosis, r.fixSteps) == Diagnose(machineId, m.ip, r.hostReachable, r.services)
  {
  }

  /** A GET for a known machine answers with that machine's report. */
  lemma WakeGetKnown(machineId: string, net: Network)
    requires machineId in MachineInfo
    ensures WakeGet(Some(machineId), net) == MachineReport(machineId, MachineInfo[machineId], net)
  {
    KnownIdsNonEmpty();
  }

  /** Both handlers answer 400 "Unknown machine" exactly for a missing, empty
      or unknown machine id. */
  lemma WakeRejectsExactlyUnknown(machineId: Option<string>, service: Option<string>, net: Network)
    ensures WakeGet(machineId, net) == GetRejected("Unknown machine") <==> !KnownMachine(machineId)
    ensures GetStatus(WakeGet(machineId, net)) == 400 <==> !KnownMachine(machineId)
    ensures WakePost(machineId, service, net) == PostRejected("Unknown machine") <==> !KnownMachine(machineId)
  {
    if KnownMachine(machineId) {
      var id := machineId.value;
      assert MachineReport(id, MachineInfo[id], net).Report?;
      if Truthy(service) {
        var r := WakeOne(id, MachineInfo[id], service.value, net);
        assert r.PostRejected? ==> r.error == "Unknown service";
        assert "Unknown service" != "Unknown machine";
      }
    }
  }

  /** `FindService` returns the first service with that name, or nothing when
      no service has it. */
  lemma {:induction false} FindServiceFirst(services: seq<Service>, name: string)
    ensures FindService(services, name).None? <==> forall i :: 0 <= i < |services| ==> services[i].name != name
    ensures FindService(services, name).Some? ==>
      exists i :: 0 <= i < |services| && services[i] == FindService(services, name).value
        && services[i].name == name && forall j :: 0 <= j < i ==> services[j].name != name
  {
    if services != [] && services[0].name != name {
      FindServiceFirst(services[1..], name);
      if FindService(services, name).Some? {
        var i :| 0 <= i < |services[1..]| && services[1..][i] == FindService(services, name).value
          && services[1..][i].name == name && forall j :: 0 <= j < i ==> services[1..][j].name != name;
        assert services[i + 1] == services[1..][i];
        assert forall j :: 1 <= j < i + 1 ==> services[j] == services[1..][j - 1];
      }
    }
  }

  /** For one named service, the reply is 400 "Unknown service" exactly when
      the machine has no service of that name; otherwise it reports that
      service, and when the service has a start command the reply omits it
      exactly when the probe is up. */
  lemma {:induction false} WakeOneShape(machineId: string, m: Machine, name: string, net: Network)
    requires forall i :: 0 <= i < |m.services| ==> m.services[i].startCmd.Some?
    ensures var r := WakeOne(machineId, m, name, net);
      && (r == PostRejected("Unknown service") <==> forall i :: 0 <= i < |m.services| ==> m.services[i].name != name)
      && (r.ServiceReply? ==> r.service == name && (r.startCmd.None? <==> r.up))
  {
    FindServiceFirst(m.services, name);
  }

  /** For a whole machine, the reply reports every service in order, omits
      the start command exactly for the services that are up (when they have
      one), and its `allUp` is the conjunction of all the probes. */
  lemma WakeAllShape(machineId: string, m: Machine, net: Network)
    requires forall i :: 0 <= i < |m.services| ==> m.services[i].startCmd.Some?
    ensures var r := WakeAll(machineId, m, net);
      && r.MachineReply? && |r.services| == |m.services|
      && (forall i :: 0 <= i < |m.services| ==>
            && r.services[i].name == m.services[i].name
            && (r.services[i].startCmd.None? <==> r.services[i].up))
      && (r.allUp <==> forall i :: 0 <= i < |m.services| ==>
            ProbeService(net.probe(m.ip, m.services[i].port, m.services[i].endpoint)).up)
  {
    var r := WakeAll(machineId, m, net);
    forall i | 0 <= i < |m.services|
      ensures r.services[i] == WakeService(m.services[i], ProbeService(net.probe(m.ip, m.services[i].port, m.services[i].endpoint)))
    {
    }
  }

  /** The POST handler dispatches a known machine to the one-service branch
      when a non-empty service name is given and to the all-services branch
      otherwise; every configured service has a start command, so the shapes
      above apply. */
  lemma WakePostKnown(machineId: string, service: Option<string>, net: Network)
    requires machineId in MachineInfo
    ensures Truthy(service) ==> WakePost(Some(machineId), service, net) == WakeOne(machineId, MachineInfo[machineId], service.value, net)
    ensures !Truthy(service) ==> WakePost(Some(machineId), service, net) == WakeAll(machineId, MachineInfo[machineId], net)
    ensures forall i :: 0 <= i < |MachineInfo[machineId].services| ==> MachineInfo[machineId].services[i].startCmd.Some?
  {
    KnownIdsNonEmpty();
    ConfiguredStartCommands(machineId);
  }

  // ---------------------------------------------------------------- finding

  /** The status the handlers answer with AS WRITTEN: their guard indexes the
      fleet object literal, so an id such as "constructor" reaches an
      inherited property, passes, and the handler then fails reading
      `.services` of it (an uncaught TypeError, answered with 500). */
  function WakeStatusAsWritten(machineId: Option<string>): nat {
    if !(Truthy(machineId) && LookupTruthy(MachineInfo.Keys, machineId.value)) then 400
    else if machineId.value in MachineInfo then 200
    else 500
  }

  /** "constructor" gets 500 from the code as written, where the corrected
      handlers answer 400 "Unknown machine". */
  lemma PrototypeKeyReachesWake(net: Network)
    ensures WakeStatusAsWritten(Some("constructor")) == 500
    ensures GetStatus(WakeGet(Some("constructor"), net)) == 400
  {
    assert "constructor" !in MachineInfo;
  }
}
