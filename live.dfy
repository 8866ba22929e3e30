/** The live-feeds page: one event feed and one connection flag per machine,
    fed by the Chat Centre WebSocket (JLa) and by polling the other machines'
    HTTP endpoints, plus the per-agent activity summaries and the
    Wake / Diagnose button that calls the wake route. */
module LiveFeeds {
  import opened Text
  import Wake

  /** An entry of a machine's feed. */
  datatype FeedEvent = FeedEvent(
    machine: string, agent: Option<string>, model: Option<string>, kind: string, content: string, ts: string)

  /** A machine card: its agents and the endpoints the page talks to. */
  datatype MachineConfig = MachineConfig(id: string, agents: seq<string>, ws: Option<string>, http: Option<string>)

  /** The backend used when `NEXT_PUBLIC_AXE_BACKEND` is not set. */
  const DefaultBackend := "https://hdr.it.com.ngrok.pro"

  /** `process.env.NEXT_PUBLIC_AXE_BACKEND || "https://hdr.it.com.ngrok.pro"`. */
  function Backend(env: Option<string>): (url: string)
    ensures Truthy(env) ==> url == env.value
    ensures !Truthy(env) ==> url == DefaultBackend
  {
    Or(env, DefaultBackend)
  }

  /** `url.replace(/^https?/, "wss")`. */
  function WsScheme(url: string): string {
    if |url| >= 5 && url[..5] == "https" then "wss" + url[5..]
    else if |url| >= 4 && url[..4] == "http" then "wss" + url[4..]
    else url
  }

  /** `MACHINES`, for a given backend URL. */
  function Machines(backend: string): seq<MachineConfig> {
    [ MachineConfig("JL1", ["Cortana", "Klaus", "Axwell", "Critic"], None, Some(backend)),
      MachineConfig("JL2", ["Forge"], None, Some(backend + "/fleet/proxy/jl2")),
      MachineConfig("JLa", ["Mum", "Chat Centre", "Critic"],
                    Some(WsScheme(backend) + "/ws/live-relay"), Some(backend + "/fleet/proxy/jla")),
      MachineConfig("JLb", [], None, None) ]
  }

  /** Without a configured backend, JL1 polls the default host, JL2 and JLa
      its fleet proxies, and JLa's socket is the same host over "wss". */
  lemma DefaultEndpoints()
    ensures Machines(Backend(None))[0].http == Some(DefaultBackend)
    ensures Machines(Backend(None))[1].http == Some(DefaultBackend + "/fleet/proxy/jl2")
    ensures Machines(Backend(None))[2].http == Some(DefaultBackend + "/fleet/proxy/jla")
    ensures Machines(Backend(None))[2].ws == Some("wss" + DefaultBackend[5..] + "/ws/live-relay")
  {
    assert DefaultBackend[..5] == "https";
  }

  /** The machine ids, in card order. */
  const Ids: seq<string> := ["JL1", "JL2", "JLa", "JLb"]
  const IdSet: set<string> := {"JL1", "JL2", "JLa", "JLb"}

  /** Feeds keep the newest hundred events. */
  const FeedCap := 100

  /** Only JL1 and JL2 are polled: JLa has the WebSocket and JLb no endpoint. */
  lemma PolledMachines(backend: string)
    ensures forall i :: 0 <= i < |Machines(backend)| ==> Machines(backend)[i].id == Ids[i]
    ensures forall i :: 0 <= i < |Machines(backend)| ==>
      (Machines(backend)[i].id != "JLa" && Machines(backend)[i].http.Some? <==> i < 2)
  {
  }

  // ------------------------------------------------------ normalisation

  /** The fields of a parsed WebSocket message the page reads. */
  datatype WsData = WsData(agent: Option<string>, engine: Option<string>, kind: Option<string>,
                           content: Option<string>, ts: Option<string>)

  /** The feed event made from a WebSocket message; `serialised` is the
      message's `JSON.stringify` text and `nowIso` the current time. */
  function WsEvent(data: WsData, serialised: string, nowIso: string): (e: FeedEvent)
    ensures e.machine == "JLa"
    ensures Truthy(data.agent) ==> e.agent == data.agent
    ensures !Truthy(data.agent) ==> e.agent == Some("System")
    ensures e.model == data.engine
    ensures Truthy(data.kind) ==> e.kind == data.kind.value
    ensures !Truthy(data.kind) ==> e.kind == "event"
    ensures Truthy(data.content) ==> e.content == data.content.value
    ensures !Truthy(data.content) ==> e.content == serialised[..if |serialised| < 200 then |serialised| else 200]
    ensures Truthy(data.ts) ==> e.ts == data.ts.value
    ensures !Truthy(data.ts) ==> e.ts == nowIso
  {
    FeedEvent("JLa", Some(Or(data.agent, "System")), data.engine, Or(data.kind, "event"),
              Or(data.content, Take(serialised, 200)), Or(data.ts, nowIso))
  }

  /** One entry of a polled `events` list. */
  datatype PolledEvent = PolledEvent(agent: Option<string>, engine: Option<string>, kind: Option<string>,
                                     content: Option<string>, ts: Option<string>)

  /** `e` is the polled entry `ev` stamped with the machine's id: each field
      is the entry's own when it is truthy, and otherwise the default, agent
      "System", type "event", empty content and the current time. */
  predicate StampedFrom(e: FeedEvent, machineId: string, ev: PolledEvent, nowIso: string) {
    && e.machine == machineId
    && (Truthy(ev.agent) ==> e.agent == ev.agent)
    && (!Truthy(ev.agent) ==> e.agent == Some("System"))
    && e.model == ev.engine
    && (Truthy(ev.kind) ==> e.kind == ev.kind.value)
    && (!Truthy(ev.kind) ==> e.kind == "event")
    && (Truthy(ev.content) ==> e.content == ev.content.value)
    && (!Truthy(ev.content) ==> e.content == "")
    && (Truthy(ev.ts) ==> e.ts == ev.ts.value)
    && (!Truthy(ev.ts) ==> e.ts == nowIso)
  }

  function PolledFeedEvent(machineId: string, ev: PolledEvent, nowIso: string): (e: FeedEvent)
    ensures StampedFrom(e, machineId, ev, nowIso)
  {
    FeedEvent(machineId, Some(Or(ev.agent, "System")), ev.engine, Or(ev.kind, "event"),
              Or(ev.content, ""), Or(ev.ts, nowIso))
  }

  /** `data.events.map(…)`: the polled entries in their order, each stamped. */
  function PolledFeed(machineId: string, evs: seq<PolledEvent>, nowIso: string): (f: seq<FeedEvent>)
    ensures |f| == |evs|
    ensures forall i :: 0 <= i < |f| ==> StampedFrom(f[i], machineId, evs[i], nowIso)
  {
    seq(|evs|, i requires 0 <= i < |evs| => PolledFeedEvent(machineId, evs[i], nowIso))
  }

  /** The heartbeat a health response adds to the feed. */
  function Heartbeat(machineId: string, status: Option<string>, nowIso: string): FeedEvent {
    FeedEvent(machineId, None, None, "heartbeat", Or(status, "online"), nowIso)
  }

  // ---------------------------------------------------------------- polling

  /** What a poll's response body holds: an `events` list (even an empty
      one), another object (the health answer), or nothing readable (a body
      that does not parse, or `null`). */
  datatype PollBody = Unparsable | Events(events: seq<PolledEvent>) | Health(status: Option<string>)

  /** A `fetch(…).catch(() => null)`: no response, or a response. */
  datatype Fetched = NoResponse | Response(ok: bool, body: PollBody)

  /** The response the poll goes on with: the first when it is ok, otherwise
      the fallback `/health` fetch. */
  function FinalResponse(first: Fetched, second: Fetched): Fetched {
    if first.Response? && first.ok then first else second
  }

  /** The machine's connection flag after a poll: an ok response whose body
      parses. (An unreadable body sets the flag and then clears it.) */
  function PollConnected(res: Fetched): bool {
    res.Response? && res.ok && !res.body.Unparsable?
  }

  /** The machine's feed after a poll. */
  function PollFeed(machineId: string, feed: seq<FeedEvent>, res: Fetched, nowIso: string): seq<FeedEvent> {
    if !(res.Response? && res.ok) then feed
    else
      match res.body
      case Unparsable => feed
      case Events(evs) => PolledFeed(machineId, evs, nowIso)
      case Health(status) => CappedAppend(feed, Heartbeat(machineId, status, nowIso), FeedCap)
  }

  /** A poll whose final response lists events replaces the feed with exactly
      those events; one that answers otherwise appends a heartbeat whose
      content is the status or "online", keeping at most a hundred events;
      one without an ok, readable answer leaves the feed alone. */
  lemma PollFeedCases(machineId: string, feed: seq<FeedEvent>, res: Fetched, nowIso: string)
    ensures PollConnected(res) && res.body.Events? ==>
      PollFeed(machineId, feed, res, nowIso) == PolledFeed(machineId, res.body.events, nowIso)
    ensures PollConnected(res) && res.body.Health? ==>
      var f := PollFeed(machineId, feed, res, nowIso);
      && |f| <= FeedCap && f[|f| - 1].kind == "heartbeat"
      && f[|f| - 1].content == (if Truthy(res.body.status) then res.body.status.value else "online")
      && f[..|f| - 1] == feed[|feed| - (|f| - 1)..]
    ensures !PollConnected(res) ==> PollFeed(machineId, feed, res, nowIso) == feed
  {
    if PollConnected(res) && res.body.Health? {
      CappedAppendShape(feed, Heartbeat(machineId, res.body.status, nowIso), FeedCap);
    }
  }

  /** The fallback fetch matters only when the first response is not ok; the
      machine counts as connected exactly when the response it settles on is
      ok and readable. */
  lemma PollConnectedCases(first: Fetched, second: Fetched)
    ensures first.Response? && first.ok ==> PollConnected(FinalResponse(first, second)) == !first.body.Unparsable?
    ensures !(first.Response? && first.ok) ==>
      (PollConnected(FinalResponse(first, second)) <==> second.Response? && second.ok && !second.body.Unparsable?)
  {
  }

  // ------------------------------------------------------ agent summaries

  /** The newest event of `feed` whose agent, lower-cased, is `agent`
      lower-cased. */
  function LastEventOf(feed: seq<FeedEvent>, agent: string): Option<FeedEvent> {
    if feed == [] then None
    else
      var e := feed[|feed| - 1];
      if e.agent.Some? && Lower(e.agent.value) == Lower(agent) then Some(e)
      else LastEventOf(feed[..|feed| - 1], agent)
  }

  predicate AgentMatches(e: FeedEvent, agent: string) {
    e.agent.Some? && Lower(e.agent.value) == Lower(agent)
  }

  /** `LastEventOf` finds the event at the highest index whose agent matches,
      and nothing exactly when no event matches. */
  lemma {:induction false} LastEventOfIsNewest(feed: seq<FeedEvent>, agent: string)
    ensures LastEventOf(feed, agent).None? <==> forall i :: 0 <= i < |feed| ==> !AgentMatches(feed[i], agent)
    ensures LastEventOf(feed, agent).Some? ==>
      exists i :: 0 <= i < |feed| && feed[i] == LastEventOf(feed, agent).value && AgentMatches(feed[i], agent)
        && forall j :: i < j < |feed| ==> !AgentMatches(feed[j], agent)
  {
    if feed != [] {
      var n := |feed| - 1;
      var front := feed[..n];
      LastEventOfIsNewest(front, agent);
      if !AgentMatches(feed[n], agent) {
        assert forall i :: 0 <= i < n ==> front[i] == feed[i];
        if LastEventOf(feed, agent).Some? {
          var i :| 0 <= i < |front| && front[i] == LastEventOf(front, agent).value && AgentMatches(front[i], agent)
            && forall j :: i < j < |front| ==> !AgentMatches(front[j], agent);
          assert feed[i] == front[i];
        }
      }
    }
  }

  /** The age of the newest matching event: milliseconds since its
      timestamp, or a timestamp `Date` cannot read (the age is then NaN). */
  datatype Age = Elapsed(ms: int) | Unreadable

  /** An agent is active when its newest event is under two minutes old. */
  predicate IsActive(last: Option<FeedEvent>, age: Age) {
    last.Some? && age.Elapsed? && age.ms < 120000
  }

  /** An agent sleeps when it is not active and its machine is offline. */
  predicate IsSleeping(last: Option<FeedEvent>, age: Age, connected: bool) {
    !IsActive(last, age) && !connected
  }

  /** The status word on an agent's box. */
  function AgentLabel(active: bool, sleeping: bool): string {
    if active then "Active" else if sleeping then "Down" else "Idle"
  }

  /** How long ago an agent that is not active was last seen: whole minutes
      under an hour, otherwise whole hours (`NaN` hours for an unreadable
      timestamp). */
  function Ago(age: Age): string {
    match age
    case Unreadable => "NaNh ago"
    case Elapsed(ms) =>
      var mins := ms / 60000;
      if mins < 60 then IntToString(mins) + "m ago" else IntToString(mins / 60) + "h ago"
  }

  datatype Summary = Summary(text: string, color: string)

  /** The summary chain of an agent's box; the first case that applies wins. */
  function AgentSummary(connected: bool, last: Option<FeedEvent>, age: Age): Summary {
    if !connected then Summary("Offline — machine unreachable", "#ff4444")
    else if last.None? then Summary("Online, waiting for activity", "var(--text-tertiary)")
    else if last.value.kind == "heartbeat" then Summary("Standing by — no active tasks", "var(--text-tertiary)")
    else if IsActive(last, age) then
      var c := last.value.content;
      Summary(if |c| > 100 then c[..97] + "..." else c, "var(--text-secondary)")
    else
      Summary("Last active " + Ago(age) + ": " + Truncate(last.value.content, 60), "var(--text-tertiary)")
  }

  /** An active agent's summary is its event's content, cut to 97 characters
      and an ellipsis when longer than 100, so never more than 100. */
  lemma ActiveSummary(last: Option<FeedEvent>, age: Age)
    requires IsActive(last, age) && last.value.kind != "heartbeat"
    ensures var s := AgentSummary(true, last, age).text;
      |s| <= 100 && (|last.value.content| <= 100 <==> s == last.value.content)
      && (|last.value.content| > 100 ==> s[..97] == last.value.content[..97] && s[97..] == "...")
  {
  }

  /** An inactive agent seen over an hour ago is reported in whole hours. */
  lemma AgoHours(ms: int)
    requires ms >= 3600000
    ensures Ago(Elapsed(ms)) == NatToString(ms / 3600000) + "h ago"
  {
    assert ms / 60000 / 60 == ms / 3600000;
  }

  /** A sleeping agent is exactly an inactive one on an offline machine, and
      its box says "Down" and "Offline — machine unreachable". */
  lemma SleepingAgent(connected: bool, last: Option<FeedEvent>, age: Age)
    ensures IsSleeping(last, age, connected) <==> !IsActive(last, age) && !connected
    ensures IsSleeping(last, age, connected) ==>
      AgentLabel(IsActive(last, age), true) == "Down"
      && AgentSummary(connected, last, age).text == "Offline — machine unreachable"
  {
  }

  // ----------------------------------------------------------------- counts

  /** `Object.values(connected).filter(Boolean).length`, over the ids. */
  function OnlineCount(connected: map<string, bool>, ids: seq<string>): nat
    requires forall i :: 0 <= i < |ids| ==> ids[i] in connected
  {
    if ids == [] then 0 else (if connected[ids[0]] then 1 else 0) + OnlineCount(connected, ids[1..])
  }

  /** `Object.values(feeds).reduce((sum, f) => sum + f.length, 0)`, over the ids. */
  function TotalEvents(feeds: map<string, seq<FeedEvent>>, ids: seq<string>): nat
    requires forall i :: 0 <= i < |ids| ==> ids[i] in feeds
  {
    if ids == [] then 0 else |feeds[ids[0]]| + TotalEvents(feeds, ids[1..])
  }

  predicate Distinct(ids: seq<string>) {
    forall i, j :: 0 <= i < j < |ids| ==> ids[i] != ids[j]
  }

  /** The online count is the number of machines whose flag is true. */
  lemma {:induction false} OnlineCountIsTrueFlags(connected: map<string, bool>, ids: seq<string>)
    requires forall i :: 0 <= i < |ids| ==> ids[i] in connected
    requires Distinct(ids)
    ensures OnlineCount(connected, ids) == |set id | id in ids && connected[id]|
  {
    if ids != [] {
      var rest := ids[1..];
      OnlineCountIsTrueFlags(connected, rest);
      var later := set id | id in rest && connected[id];
      var all := set id | id in ids && connected[id];
      assert ids[0] !in rest by {
        forall k | 0 <= k < |rest| ensures rest[k] != ids[0] {
          assert rest[k] == ids[k + 1];
        }
      }
      if connected[ids[0]] {
        assert all == later + {ids[0]};
      } else {
        assert all == later;
      }
    }
  }

  /** Changing one machine's feed changes the total by the difference in
      that feed's length. */
  lemma {:induction false} TotalEventsUpdate(feeds: map<string, seq<FeedEvent>>, ids: seq<string>, id: string,
                                             f: seq<FeedEvent>)
    requires forall i :: 0 <= i < |ids| ==> ids[i] in feeds
    requires Distinct(ids) && id in ids
    ensures TotalEvents(feeds[id := f], ids) + |feeds[id]| == TotalEvents(feeds, ids) + |f|
  {
    if ids[0] == id {
      TotalEventsOther(feeds, ids[1..], id, f);
    } else {
      TotalEventsUpdate(feeds, ids[1..], id, f);
    }
  }

  lemma {:induction false} TotalEventsOther(feeds: map<string, seq<FeedEvent>>, ids: seq<string>, id: string,
                                            f: seq<FeedEvent>)
    requires forall i :: 0 <= i < |ids| ==> ids[i] in feeds
    requires id !in ids
    ensures TotalEvents(feeds[id := f], ids) == TotalEvents(feeds, ids)
  {
    if ids != [] {
      TotalEventsOther(feeds, ids[1..], id, f);
    }
  }

  // ------------------------------------------------------------ page state

  /** What `fetch('/api/wake?machine=…')` yields: a thrown error, a non-ok
      response, or an ok response with the report. */
  datatype WakeFetch = WakeThrew | WakeNotOk | WakeOk(report: Wake.GetReply)

  /** `data.allUp` of a report; a body without the field reads as false. */
  predicate ReportAllUp(r: Wake.GetReply) {
    r.Report? && r.allUp
  }

  /** The page's state records. */
  class LiveState {
    var feeds: map<string, seq<FeedEvent>>
    var connected: map<string, bool>
    var waking: map<string, bool>
    var diag: map<string, Option<Wake.GetReply>>
    var diagOpen: map<string, bool>

    /** Every machine has a feed and a connection flag. */
    predicate Valid()
      reads this`feeds, this`connected
    {
      IdSet <= feeds.Keys && IdSet <= connected.Keys
    }

    constructor ()
      ensures Valid()
      ensures feeds == map["JL1" := [], "JL2" := [], "JLa" := [], "JLb" := []]
      ensures connected == map["JL1" := false, "JL2" := false, "JLa" := false, "JLb" := false]
      ensures waking == map[] && diag == map[] && diagOpen == map[]
    {
      feeds := map["JL1" := [], "JL2" := [], "JLa" := [], "JLb" := []];
      connected := map["JL1" := false, "JL2" := false, "JLa" := false, "JLb" := false];
      waking, diag, diagOpen := map[], map[], map[];
    }

    /** The header's "N/4 Online". */
    function Online(): (n: nat)
      reads this
      requires Valid()
      ensures n <= |Ids|
    {
      OnlineCountBound(connected, Ids);
      OnlineCount(connected, Ids)
    }

    /** The header's "N events". */
    function Total(): nat
      reads this
      requires Valid()
    {
      TotalEvents(feeds, Ids)
    }

    /** The socket opened (`true`) or closed (`false`). */
    method OnWsStatus(open: bool)
      requires Valid()
      modifies this
      ensures Valid()
      ensures connected == old(connected)["JLa" := open]
      ensures feeds == old(feeds) && waking == old(waking) && diag == old(diag) && diagOpen == old(diagOpen)
    {
      connected := connected["JLa" := open];
    }

    /** A WebSocket message: one that parses becomes an event appended to
        JLa's feed, which keeps the newest hundred; one that does not is
        dropped. */
    method OnWsMessage(data: Option<WsData>, serialised: string, nowIso: string)
      requires Valid()
      modifies this
      ensures Valid()
      ensures data.None? ==> feeds == old(feeds)
      ensures data.Some? ==>
        feeds == old(feeds)["JLa" := CappedAppend(old(feeds)["JLa"], WsEvent(data.value, serialised, nowIso), FeedCap)]
      ensures connected == old(connected) && waking == old(waking) && diag == old(diag) && diagOpen == old(diagOpen)
    {
      if data.Some? {
        var event := WsEvent(data.value, serialised, nowIso);
        feeds := feeds["JLa" := CappedAppend(feeds["JLa"], event, FeedCap)];
      }
    }

    /** `pollMachine`: a machine without an HTTP endpoint is left alone;
        otherwise `/events/recent` is fetched, then `/health` when that is not
        ok, and the machine's flag and feed follow the response settled on. */
    method PollMachine(machine: MachineConfig, first: Fetched, second: Fetched, nowIso: string)
      requires Valid() && machine.id in IdSet
      modifies this
      ensures Valid()
      ensures machine.http.None? ==> feeds == old(feeds) && connected == old(connected)
      ensures machine.http.Some? ==>
        var res := FinalResponse(first, second);
        && connected == old(connected)[machine.id := PollConnected(res)]
        && feeds == old(feeds)[machine.id := PollFeed(machine.id, old(feeds)[machine.id], res, nowIso)]
      ensures waking == old(waking) && diag == old(diag) && diagOpen == old(diagOpen)
    {
      if machine.http.None? {
        return;
      }
      var res := first;
      if !(res.Response? && res.ok) {
        res := second;
      }
      if res.Response? && res.ok {
        connected := connected[machine.id := true];
        match res.body
        case Unparsable =>
          connected := connected[machine.id := false];
        case Events(evs) =>
          feeds := feeds[machine.id := PolledFeed(machine.id, evs, nowIso)];
        case Health(status) =>
          var event := Heartbeat(machine.id, status, nowIso);
          feeds := feeds[machine.id := CappedAppend(feeds[machine.id], event, FeedCap)];
      } else {
        connected := connected[machine.id := false];
      }
    }

    /** `wakeMachine`: clears the machine's diagnosis and opens its panel,
        asks the wake route, keeps the report it gets, marks the machine
        connected only when every service is up, and ends not waking. */
    method WakeMachine(machineId: string, outcome: WakeFetch)
      requires Valid() && machineId in IdSet
      modifies this
      ensures Valid()
      ensures waking == old(waking)[machineId := false]
      ensures diagOpen == old(diagOpen)[machineId := true]
      ensures diag == old(diag)[machineId := if outcome.WakeOk? then Some(outcome.report) else None]
      ensures connected == if outcome.WakeOk? && ReportAllUp(outcome.report)
                           then old(connected)[machineId := true] else old(connected)
      ensures feeds == old(feeds)
    {
      StartWake(machineId);
      FinishWake(machineId, outcome);
    }

    /** What `wakeMachine` does before its fetch. */
    method StartWake(machineId: string)
      requires Valid()
      modifies this
      ensures Valid()
      ensures waking == old(waking)[machineId := true]
      ensures diag == old(diag)[machineId := None]
      ensures diagOpen == old(diagOpen)[machineId := true]
      ensures connected == old(connected) && feeds == old(feeds)
    {
      waking := waking[machineId := true];
      diag := diag[machineId := None];
      diagOpen := diagOpen[machineId := true];
    }

    /** What `wakeMachine` does once the fetch settles. */
    method FinishWake(machineId: string, outcome: WakeFetch)
      requires Valid() && machineId in IdSet
      modifies this
      ensures Valid()
      ensures waking == old(waking)[machineId := false]
      ensures diag == if outcome.WakeOk? then old(diag)[machineId := Some(outcome.report)] else old(diag)
      ensures connected == if outcome.WakeOk? && ReportAllUp(outcome.report)
                           then old(connected)[machineId := true] else old(connected)
      ensures diagOpen == old(diagOpen) && feeds == old(feeds)
    {
      if outcome.WakeOk? {
        var data := outcome.report;
        diag := diag[machineId := Some(data)];
        if ReportAllUp(data) {
          connected := connected[machineId := true];
        }
      }
      waking := waking[machineId := false];
    }
  }

  lemma {:induction false} OnlineCountBound(connected: map<string, bool>, ids: seq<string>)
    requires forall i :: 0 <= i < |ids| ==> ids[i] in connected
    ensures OnlineCount(connected, ids) <= |ids|
  {
    if ids != [] {
      OnlineCountBound(connected, ids[1..]);
    }
  }

  /** The machine card's status word. */
  function MachineStatus(id: string, connected: bool): (s: string)
    ensures connected <==> s == "Live"
  {
    if connected then "Live" else if id == "JLb" then "Standby" else "Offline"
  }

  /** The Wake / Diagnose button shows for an offline machine other than JLb:
      exactly the cards whose status reads "Offline". */
  function ShowsWakeButton(id: string, connected: bool): (shown: bool)
    ensures shown <==> MachineStatus(id, connected) == "Offline"
  {
    !connected && id != "JLb"
  }
}
