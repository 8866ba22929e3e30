/** The home page: a live feed of chat-centre events received over a
    WebSocket (with a polling fallback while it is down), a health line for
    the model back-ends, and a box that sends a message to a chosen agent. */
module Dashboard {
  import opened Text

  /** The feed keeps at most this many events. */
  const FeedCap := 500

  /** A chat-centre event; every field but `type` and `ts` may be absent. */
  datatype Event = Event(kind: string, ts: string, agent: Option<string>, content: Option<string>,
                         source: Option<string>, engine: Option<string>, action: Option<string>,
                         round: Option<int>, status: Option<string>)

  /** A WebSocket frame: JSON that parses to an event, or anything else. */
  datatype Frame = NotJson | Parsed(event: Event)

  /** A fallback poll: failed (network or JSON), or a body whose `events`
      may be missing. */
  datatype PollResult = PollFailed | PollBody(events: Option<seq<Event>>)

  /** The health endpoint's body. */
  datatype Health = Health(status: string, ollama: string, fastModel: Option<string>, heavyModel: Option<string>,
                           memory: string)

  /** How a send ended: the fetch threw, or it answered with or without
      `ok`. */
  datatype SendResult = SendThrew | Answered(ok: bool)

  /** The body posted to `/chat`. */
  datatype ChatRequest = ChatRequest(message: string, agent: string, heavy: bool)

  // ------------------------------------------------------------ the feed

  /** The feed after a WebSocket frame: a parsed event is appended keeping
      the newest 500, anything else is ignored. */
  function OnFrame(events: seq<Event>, f: Frame): seq<Event> {
    match f
    case NotJson => events
    case Parsed(e) => CappedAppend(events, e, FeedCap)
  }

  /** A frame leaves at most 500 events; a parsed one ends the feed, after
      the newest 499 (or all) old events in order. */
  lemma OnFrameShape(events: seq<Event>, f: Frame)
    ensures f.NotJson? ==> OnFrame(events, f) == events
    ensures f.Parsed? ==>
      var r := OnFrame(events, f);
      && |r| == (if |events| < FeedCap then |events| + 1 else FeedCap)
      && r[|r| - 1] == f.event
      && r[..|r| - 1] == events[|events| - (|r| - 1)..]
  {
    if f.Parsed? {
      CappedAppendShape(events, f.event, FeedCap);
    }
  }

  /** A feed within the cap stays within it. */
  lemma {:induction false} OnFramesBounded(events: seq<Event>, frames: seq<Frame>)
    requires |events| <= FeedCap
    ensures |OnFrames(events, frames)| <= FeedCap
  {
    if frames != [] {
      var front := frames[..|frames| - 1];
      OnFramesBounded(events, front);
      OnFrameShape(OnFrames(events, front), frames[|frames| - 1]);
    }
  }

  /** The feed after a run of frames. */
  function OnFrames(events: seq<Event>, frames: seq<Frame>): seq<Event> {
    if frames == [] then events else OnFrame(OnFrames(events, frames[..|frames| - 1]), frames[|frames| - 1])
  }

  /** The feed after a fallback poll: replaced by a non-empty list, kept on
      anything else. */
  function OnPoll(events: seq<Event>, r: PollResult): seq<Event> {
    if r.PollBody? && r.events.Some? && |r.events.value| > 0 then r.events.value else events
  }

  /** A poll replaces the feed exactly when it brings events. */
  lemma OnPollMeans(events: seq<Event>, r: PollResult)
    ensures OnPoll(events, r) != events ==> r.PollBody? && r.events == Some(OnPoll(events, r))
    ensures r.PollBody? && r.events.Some? && r.events.value != [] ==> OnPoll(events, r) == r.events.value
    ensures r.PollFailed? || r.events.None? || r.events == Some([]) ==> OnPoll(events, r) == events
  {
  }

  // ------------------------------------------------------------ the health line

  /** The model name shown: the part after the last "/". */
  function ModelName(model: string): (r: string)
    ensures '/' !in r
    ensures |r| <= |model| && model[|model| - |r|..] == r
    ensures |r| < |model| ==> model[|model| - |r| - 1] == '/'
  {
    LastSegmentShape(model, '/');
    LastSegment(model, '/')
  }

  /** A model name without "/" is shown whole. */
  lemma ModelNameNoSlash(model: string)
    requires '/' !in model
    ensures ModelName(model) == model
  {
    SplitNoSeparator(model, '/');
  }

  /** The Ollama word is green exactly when Ollama is "up", red otherwise. */
  function OllamaClass(h: Health): (c: string)
    ensures c == "text-emerald-400" <==> h.ollama == "up"
    ensures c != "text-emerald-400" ==> c == "text-red-400"
  {
    if h.ollama == "up" then "text-emerald-400" else "text-red-400"
  }

  /** The memory word is green exactly when memory is "available", amber
      otherwise. */
  function MemoryClass(h: Health): (c: string)
    ensures c == "text-emerald-400" <==> h.memory == "available"
    ensures c != "text-emerald-400" ==> c == "text-amber-400"
  {
    if h.memory == "available" then "text-emerald-400" else "text-amber-400"
  }

  // ------------------------------------------------------------ event cards

  /** `AGENT_COLORS` and `AGENT_DOT`. */
  const AgentColors: map<string, string> := map[
    "Forge" := "border-emerald-500 bg-emerald-500/10",
    "Cortana" := "border-purple-500 bg-purple-500/10",
    "Klaus" := "border-blue-500 bg-blue-500/10",
    "Axwell" := "border-red-500 bg-red-500/10",
    "Critic" := "border-amber-500 bg-amber-500/10"]
  const AgentDots: map<string, string> := map[
    "Forge" := "bg-emerald-500",
    "Cortana" := "bg-purple-500",
    "Klaus" := "bg-blue-500",
    "Axwell" := "bg-red-500",
    "Critic" := "bg-amber-500"]
  const GrayColor := "border-gray-600 bg-gray-600/10"
  const GrayDot := "bg-gray-500"

  /** The separator of the swarm-end line. The page's text holds an em dash
      whose UTF-8 bytes were read as Windows-1252, so it shows as these three
      characters. */
  const SwarmEndDash := "\U{E2}\U{20AC}\U{201D}"

  /** The card an event is drawn as, with the texts it shows. */
  datatype Card =
    | UserCard(sender: string, to: string, content: Option<string>)
    | AgentCard(name: string, colorClass: string, dotClass: string, engine: Option<string>, content: Option<string>)
    | SwarmTurnCard(name: string, colorClass: string, dotClass: string, round: Option<int>, content: Option<string>)
    | SwarmEndCard(text: string)
    | CriticCard(action: Option<string>, engine: Option<string>, content: Option<string>)
    | FallbackCard(text: string)

  /** `ev.agent || "System"`. */
  function AgentName(ev: Event): string {
    Or(ev.agent, "System")
  }

  /** A class from one of the agent maps, or the gray fallback. */
  function ClassFor(classes: map<string, string>, name: string, fallback: string): string {
    if name in classes && classes[name] != "" then classes[name] else fallback
  }

  /** An absent value renders as nothing. */
  function Shown(s: Option<string>): string {
    if s.Some? then s.value else ""
  }

  /** `renderEvent`: the card is chosen by the event's type, first match. */
  function RenderEvent(ev: Event): Card {
    var name := AgentName(ev);
    var color := ClassFor(AgentColors, name, GrayColor);
    var dot := ClassFor(AgentDots, name, GrayDot);
    if ev.kind == "user_msg" then
      UserCard(if ev.source == Some("live_viewer") then "Live Viewer" else "User", name, ev.content)
    else if ev.kind == "agent_reply" then AgentCard(name, color, dot, ev.engine, ev.content)
    else if ev.kind == "swarm_turn" then SwarmTurnCard(name, color, dot, ev.round, ev.content)
    else if ev.kind == "swarm_end" then SwarmEndCard("Swarm " + Shown(ev.status) + " " + SwarmEndDash + " " + name + " called it")
    else if ev.kind == "critic_action" then CriticCard(ev.action, ev.engine, ev.content)
    else FallbackCard(ev.kind + ": " + (if ev.content.Some? then Take(ev.content.value, 100) else ""))
  }

  /** The five known types get their own card; every other type gets the
      fallback line, which shows the type and at most 100 characters of
      the content. */
  lemma RenderKinds(ev: Event)
    ensures RenderEvent(ev).FallbackCard? <==>
      ev.kind !in {"user_msg", "agent_reply", "swarm_turn", "swarm_end", "critic_action"}
    ensures RenderEvent(ev).FallbackCard? ==>
      |RenderEvent(ev).text| <= |ev.kind| + 2 + 100
      && RenderEvent(ev).text[..|ev.kind| + 2] == ev.kind + ": "
  {
    if RenderEvent(ev).FallbackCard? {
      var tail := if ev.content.Some? then Take(ev.content.value, 100) else "";
      assert RenderEvent(ev).text == ev.kind + ": " + tail;
      assert (ev.kind + ": " + tail)[..|ev.kind| + 2] == ev.kind + ": ";
    }
  }

  /** An event without an agent is drawn for "System", which has no colour
      of its own; an agent outside the five named ones gets the gray
      classes, and a named one its own. */
  lemma RenderAgentColors(ev: Event)
    requires ev.kind == "agent_reply" || ev.kind == "swarm_turn"
    ensures var c := RenderEvent(ev);
      && (!Truthy(ev.agent) ==> c.name == "System" && c.colorClass == GrayColor && c.dotClass == GrayDot)
      && (Truthy(ev.agent) ==> c.name == ev.agent.value)
      && (c.name !in AgentColors ==> c.colorClass == GrayColor && c.dotClass == GrayDot)
      && (c.name in AgentColors ==> c.colorClass == AgentColors[c.name] && c.dotClass == AgentDots[c.name])
  {
    assert "System" !in AgentColors;
  }

  // ------------------------------------------------------------ the page

  /** The home page's state. */
  class Home {
    var events: seq<Event>
    var connected: bool
    var health: Option<Health>
    var message: string
    var agent: string
    var heavy: bool
    var sending: bool

    constructor ()
      ensures events == [] && !connected && health == None
      ensures message == "" && agent == "Forge" && !heavy && !sending
    {
      events, connected, health := [], false, None;
      message, agent, heavy, sending := "", "Forge", false, false;
    }

    /** `ws.onmessage`. */
    method OnMessage(f: Frame)
      modifies this`events
      ensures events == OnFrame(old(events), f)
    {
      match f
      case NotJson =>
      case Parsed(e) =>
        events := Last(events, FeedCap - 1) + [e];
    }

    /** `ws.onopen` and `ws.onclose`. */
    method OnConnection(open: bool)
      modifies this`connected
      ensures connected == open
    {
      connected := open;
    }

    /** A tick of the fallback poll, which runs only while disconnected. */
    method PollTick(r: PollResult)
      modifies this`events
      ensures connected ==> events == old(events)
      ensures !connected ==> events == OnPoll(old(events), r)
    {
      if connected {
        return;
      }
      if r.PollBody? && r.events.Some? && |r.events.value| > 0 {
        events := r.events.value;
      }
    }

    /** The health check: the body, or nothing when it failed. */
    method OnHealth(h: Option<Health>)
      modifies this`health
      ensures health == h
    {
      health := h;
    }

    /** `sendMessage`. Nothing happens for a blank message or while a send
        is in flight; otherwise the trimmed message is posted, the box is
        cleared only on an ok answer, and `sending` ends false. */
    method SendMessage(r: SendResult) returns (sent: Option<ChatRequest>)
      modifies this`message, this`sending
      ensures Trim(old(message)) == "" || old(sending) ==> sent == None && unchanged(this)
      ensures Trim(old(message)) != "" && !old(sending) ==>
        && sent == Some(ChatRequest(Trim(old(message)), agent, heavy))
        && message == (if r == Answered(true) then "" else old(message))
        && !sending
    {
      if Trim(message) == "" || sending {
        return None;
      }
      sent := Some(ChatRequest(Trim(message), agent, heavy));
      sending := true;
      if r == Answered(true) {
        message := "";
      }
      sending := false;
    }
  }
}
