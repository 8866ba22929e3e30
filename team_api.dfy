/** The `/api/team` route: reads and updates the agents' essence (system
    prompt) files, the task ledger and the team channel, a file of one JSON
    message per line. The files are a value handed to each handler and
    returned updated. */
module TeamApi {
  import opened Text

  /** `AGENT_FILES`: each agent's essence file, in declaration order. */
  const AgentNames: seq<string> := ["forge", "cortana", "klaus", "axwell", "mum"]
  const AgentFiles: map<string, string> := map[
    "forge" := "forge_system_prompt.md",
    "cortana" := "cortana_system_prompt.md",
    "klaus" := "klaus_system_prompt.md",
    "axwell" := "axwell_system_prompt.md",
    "mum" := "mum_system_prompt.md"]

  /** How many channel lines a read returns at most. */
  const ChannelWindow := 30

  /** A task of the ledger. */
  datatype Task = Task(id: string, title: string, assignedTo: string, status: string, priority: string,
                       notes: string, createdAt: string, createdFrom: string)

  /** The ledger file: unreadable (missing, not JSON, or `null`), or an object
      whose task lists may be absent. */
  datatype LedgerFile =
    | Unreadable
    | Ledger(activeTasks: Option<seq<Task>>, completedToday: Option<seq<Task>>, lastUpdated: string)

  /** A channel message. */
  datatype ChannelMessage = ChannelMessage(ts: string, from: string, to: string, kind: string, msg: string)

  /** What `JSON.parse` makes of a channel line: an error, a falsy value
      (`null`, `0`, `false`, `""`), or a message. */
  datatype Parsed = NotJson | Falsy | Entry(message: ChannelMessage)

  /** `JSON.stringify` and `JSON.parse` for channel lines. */
  datatype Codec = Codec(encode: ChannelMessage -> string, decode: string -> Parsed)

  /** What `JSON.stringify` guarantees of an encoded message: one line that
      starts and ends with a brace, and that parses back to the message. */
  predicate RoundTrips(c: Codec, m: ChannelMessage) {
    var e := c.encode(m);
    e != [] && '\n' !in e && !IsSpace(e[0]) && !IsSpace(e[|e| - 1]) && c.decode(e) == Entry(m)
  }

  /** The files the route touches: essence files by name (absent when
      unreadable), the ledger, and the channel (absent when unreadable). */
  datatype Files = Files(essences: map<string, string>, ledger: LedgerFile, channel: Option<string>)

  // ------------------------------------------------------------------ GET

  datatype GetReply =
    | EssencesReply(essences: map<string, string>)
    | TasksReply(tasks: seq<Task>, completed: seq<Task>)
    | ChannelReply(messages: seq<ChannelMessage>)
    | GetRejected(error: string)

  /** The essences action: every agent's file, or "" when it cannot be read. */
  method ReadEssences(files: map<string, string>) returns (essences: map<string, string>)
    ensures essences.Keys == AgentFiles.Keys
    ensures forall name :: name in essences ==>
      essences[name] == if AgentFiles[name] in files then files[AgentFiles[name]] else ""
  {
    essences := map[];
    var i := 0;
    while i < |AgentNames|
      invariant 0 <= i <= |AgentNames|
      invariant forall name :: name in essences <==> name in AgentNames[..i]
      invariant forall name :: name in essences ==>
        name in AgentFiles && essences[name] == if AgentFiles[name] in files then files[AgentFiles[name]] else ""
    {
      var name := AgentNames[i];
      var file := AgentFiles[name];
      if file in files {
        essences := essences[name := files[file]];
      } else {
        essences := essences[name := ""];
      }
      i := i + 1;
    }
    assert AgentNames[..i] == AgentNames;
  }

  /** The tasks action: the ledger's two lists, each empty when absent, and
      both empty when the ledger cannot be read. */
  function ReadTasks(ledger: LedgerFile): (r: GetReply)
    ensures r.TasksReply?
    ensures ledger.Unreadable? ==> r.tasks == [] && r.completed == []
    ensures ledger.Ledger? && ledger.activeTasks.Some? ==> r.tasks == ledger.activeTasks.value
    ensures ledger.Ledger? && ledger.activeTasks.None? ==> r.tasks == []
    ensures ledger.Ledger? && ledger.completedToday.Some? ==> r.completed == ledger.completedToday.value
    ensures ledger.Ledger? && ledger.completedToday.None? ==> r.completed == []
  {
    match ledger
    case Unreadable => TasksReply([], [])
    case Ledger(active, completed, _) =>
      TasksReply(if active.Some? then active.value else [], if completed.Some? then completed.value else [])
  }

  /** `.map(JSON.parse or null).filter(Boolean)`: the lines that parse to a
      message, in order. */
  function Messages(lines: seq<string>, decode: string -> Parsed): seq<ChannelMessage> {
    if lines == [] then []
    else
      var last := lines[|lines| - 1];
      Messages(lines[..|lines| - 1], decode) + (if decode(last).Entry? then [decode(last).message] else [])
  }

  /** Parsing a concatenation parses each part, in order. */
  lemma {:induction false} MessagesAppend(a: seq<string>, b: seq<string>, decode: string -> Parsed)
    ensures Messages(a + b, decode) == Messages(a, decode) + Messages(b, decode)
    decreases |b|
  {
    if b == [] {
      assert a + b == a;
    } else {
      MessagesAppend(a, b[..|b| - 1], decode);
      assert (a + b)[..|a + b| - 1] == a + b[..|b| - 1];
      assert (a + b)[|a + b| - 1] == b[|b| - 1];
    }
  }

  /** No more messages than lines, and each one is what some line parses to. */
  lemma {:induction false} MessagesFromLines(lines: seq<string>, decode: string -> Parsed)
    ensures |Messages(lines, decode)| <= |lines|
    ensures forall k :: 0 <= k < |Messages(lines, decode)| ==>
      exists i :: 0 <= i < |lines| && decode(lines[i]) == Entry(Messages(lines, decode)[k])
  {
    if lines != [] {
      var front := lines[..|lines| - 1];
      MessagesFromLines(front, decode);
      forall k | 0 <= k < |Messages(front, decode)|
        ensures exists i :: 0 <= i < |lines| && decode(lines[i]) == Entry(Messages(lines, decode)[k])
      {
        var i :| 0 <= i < |front| && decode(front[i]) == Entry(Messages(front, decode)[k]);
        assert lines[i] == front[i];
      }
    }
  }

  /** The channel action's messages: the last 30 lines of the trimmed file,
      keeping those that parse. */
  function ChannelTail(raw: string, decode: string -> Parsed): seq<ChannelMessage> {
    Messages(Last(Split(Trim(raw), '\n'), ChannelWindow), decode)
  }

  /** A channel read returns at most 30 messages. */
  lemma ChannelTailBound(raw: string, decode: string -> Parsed)
    ensures |ChannelTail(raw, decode)| <= ChannelWindow
  {
    MessagesFromLines(Last(Split(Trim(raw), '\n'), ChannelWindow), decode);
  }

  /** `GET /api/team?action=…`. */
  method TeamGet(action: Option<string>, files: Files, codec: Codec) returns (reply: GetReply)
    ensures action == Some("essences") ==> reply.EssencesReply? && reply.essences.Keys == AgentFiles.Keys
    ensures action == Some("essences") ==> forall name :: name in reply.essences ==>
      reply.essences[name] == if AgentFiles[name] in files.essences then files.essences[AgentFiles[name]] else ""
    ensures action == Some("tasks") ==> reply == ReadTasks(files.ledger)
    ensures action == Some("channel") ==>
      reply == ChannelReply(if files.channel.Some? then ChannelTail(files.channel.value, codec.decode) else [])
    ensures action != Some("essences") && action != Some("tasks") && action != Some("channel") ==>
      reply == GetRejected("Unknown action")
  {
    if action == Some("essences") {
      var essences := ReadEssences(files.essences);
      return EssencesReply(essences);
    }
    if action == Some("tasks") {
      return ReadTasks(files.ledger);
    }
    if action == Some("channel") {
      if files.channel.None? {
        return ChannelReply([]);
      }
      return ChannelReply(ChannelTail(files.channel.value, codec.decode));
    }
    return GetRejected("Unknown action");
  }

  // ----------------------------------------------------------------- POST

  /** The fields of a POST body the route reads. */
  datatype PostBody = PostBody(action: Option<string>, agent: Option<string>, content: Option<string>,
                               title: Option<string>, priority: Option<string>, notes: Option<string>,
                               to: Option<string>, message: Option<string>)

  datatype PostReply =
    | Success
    | TaskCreated(task: Task)
    | Rejected(error: string)
      /** A caught exception, answered 500 with its text. */
    | ServerError
      /** An exception the handler does not catch. */
    | Crashed

  function PostStatus(r: PostReply): nat {
    match r
    case Rejected(_) => 400
    case ServerError => 500
    case Crashed => 500
    case _ => 200
  }

  /** The channel file with one more message line. */
  function AppendLine(channel: string, m: ChannelMessage, codec: Codec): string {
    channel + codec.encode(m) + "\n"
  }

  /** Trimming a channel file after a line was appended keeps the line and
      drops only the break after it (and any white space before the file's
      first line). */
  lemma TrimAppendedLine(raw: string, e: string)
    requires e != [] && !IsSpace(e[0]) && !IsSpace(e[|e| - 1])
    ensures Trim(raw + e + "\n") == TrimStart(raw) + e
  {
    var x := TrimStart(raw) + e;
    TrimStartAppendedLine(raw, e);
    EndsLike(TrimStart(raw), e);
    TrimEndNewline(x);
    TrimOf(raw + e + "\n", x);
  }

  lemma TrimStartAppendedLine(raw: string, e: string)
    requires e != [] && !IsSpace(e[0])
    ensures TrimStart(raw + e + "\n") == TrimStart(raw) + e + "\n"
  {
    TrimStartAppend(raw, e + "\n");
    LineAssoc(raw, e);
    LineAssoc(TrimStart(raw), e);
  }

  lemma TrimOf(s: string, x: string)
    requires TrimStart(s) == x + "\n" && TrimEnd(x + "\n") == x
    ensures Trim(s) == x
  {
  }

  lemma LineAssoc(p: string, e: string)
    ensures p + e + "\n" == p + (e + "\n")
  {
  }

  /** A concatenation ends as its non-empty second part does. */
  lemma EndsLike(p: string, e: string)
    requires e != [] && !IsSpace(e[|e| - 1])
    ensures p + e != [] && !IsSpace((p + e)[|p + e| - 1])
  {
    assert (p + e)[|p + e| - 1] == e[|e| - 1];
  }

  /** The last line of a file that ends with a line holding no break is that
      line. */
  lemma LastLine(p: string, e: string)
    requires p == [] || p[|p| - 1] == '\n'
    requires '\n' !in e
    ensures var lines := Split(p + e, '\n'); lines[|lines| - 1] == e
  {
    SplitNoSeparator(e, '\n');
    if p == [] {
      assert p + e == e;
    } else {
      var q := p[..|p| - 1];
      assert p + e == q + ['\n'] + e;
      SplitAround(q, '\n', e);
    }
  }

  /** A read after an append sees the appended message last, whatever the
      channel held before, provided each earlier write ended its line. */
  lemma ChannelReadSeesAppend(raw: string, m: ChannelMessage, codec: Codec)
    requires RoundTrips(codec, m)
    requires raw == [] || raw[|raw| - 1] == '\n'
    ensures var msgs := ChannelTail(AppendLine(raw, m, codec), codec.decode);
      |msgs| >= 1 && msgs[|msgs| - 1] == m
  {
    AppendedLineIsLast(raw, codec.encode(m), codec.decode);
  }

  lemma AppendedLineIsLast(raw: string, e: string, decode: string -> Parsed)
    requires e != [] && '\n' !in e && !IsSpace(e[0]) && !IsSpace(e[|e| - 1]) && decode(e).Entry?
    requires raw == [] || raw[|raw| - 1] == '\n'
    ensures var msgs := ChannelTail(raw + e + "\n", decode);
      |msgs| >= 1 && msgs[|msgs| - 1] == decode(e).message
  {
    TrimAppendedLine(raw, e);
    LastLine(TrimStart(raw), e);
    WindowEndsWith(Split(TrimStart(raw) + e, '\n'), decode);
  }

  /** The messages of the last lines end with what the last line parses to. */
  lemma WindowEndsWith(lines: seq<string>, decode: string -> Parsed)
    requires |lines| >= 1 && decode(lines[|lines| - 1]).Entry?
    ensures var msgs := Messages(Last(lines, ChannelWindow), decode);
      |msgs| >= 1 && msgs[|msgs| - 1] == decode(lines[|lines| - 1]).message
  {
    var window := Last(lines, ChannelWindow);
    assert |window| >= 1 && window[|window| - 1] == lines[|lines| - 1];
  }

  /** `update_essence` as the code checks it: `AGENT_FILES[agent]` is looked up
      on a plain object, so an inherited name such as "toString" passes. */
  predicate EssenceTargetAsWritten(agent: string) {
    LookupTruthy(AgentFiles.Keys, agent)
  }

  /** The check as intended: one of the five agents. */
  predicate EssenceTarget(agent: string) {
    agent in AgentFiles
  }

  /** `existing.trimEnd() + "\n\n" + content.trim() + "\n"`. */
  function AppendEssence(existing: string, content: string): string {
    TrimEnd(existing) + "\n\n" + Trim(content) + "\n"
  }

  /** An essence update keeps the old essence, without its trailing white
      space, as a prefix, and ends with the trimmed new content on its own
      paragraph. */
  lemma EssenceUpdateShape(existing: string, content: string)
    ensures var r := AppendEssence(existing, content);
      var k := |TrimEnd(existing)|;
      && r[..k] == existing[..k]
      && r[k..] == "\n\n" + Trim(content) + "\n"
      && |r| == k + |Trim(content)| + 3
  {
  }

  /** The channel note of an essence update. */
  function EssenceNote(agent: string, content: string, nowIso: string): ChannelMessage {
    ChannelMessage(nowIso, "james", agent, "essence_update",
                   "Updated " + agent + "'s essence: " + Take(content, 100) + "...")
  }

  /** `"LIVE-" + String(Date.now()).slice(-6)`. */
  function TaskId(nowMs: nat): string {
    "LIVE-" + Last(NatToString(nowMs), 6)
  }

  /** A task id is "LIVE-" and the last six digits of the timestamp (all of
      them for a shorter one). */
  lemma TaskIdShape(nowMs: nat)
    ensures TaskId(nowMs)[..5] == "LIVE-"
    ensures 6 <= |TaskId(nowMs)| <= 11
    ensures forall i :: 5 <= i < |TaskId(nowMs)| ==> '0' <= TaskId(nowMs)[i] <= '9'
    ensures nowMs >= 100000 ==> |TaskId(nowMs)| == 11
  {
    if nowMs >= 100000 {
      assert Pow10(5) == 100000;
      NatToStringLength(nowMs, 5);
    }
  }

  function Pow10(k: nat): (p: nat)
    ensures p >= 1
  {
    if k == 0 then 1 else 10 * Pow10(k - 1)
  }

  /** A number of at least `10^k` has more than `k` digits. */
  lemma {:induction false} NatToStringLength(n: nat, k: nat)
    requires n >= Pow10(k)
    ensures |NatToString(n)| > k
  {
    if k > 0 {
      assert n >= 10 * Pow10(k - 1);
      assert n / 10 >= Pow10(k - 1);
      NatToStringLength(n / 10, k - 1);
    }
  }

  /** The task `create_task` records. */
  function NewTask(agent: string, title: string, priority: Option<string>, notes: Option<string>,
                   nowMs: nat, nowIso: string): (t: Task)
    ensures t.id == TaskId(nowMs) && t.title == title && t.assignedTo == agent
    ensures t.status == "pending" && t.createdFrom == "axe-live"
    ensures t.priority == (if Truthy(priority) then priority.value else "MEDIUM")
    ensures t.notes == (if Truthy(notes) then notes.value else "")
  {
    Task(TaskId(nowMs), title, agent, "pending", Or(priority, "MEDIUM"), Or(notes, ""), nowIso, "axe-live")
  }

  /** The channel note of a new task. */
  function TaskNote(agent: string, title: string, priority: Option<string>, nowIso: string): ChannelMessage {
    ChannelMessage(nowIso, "james", agent, "task_assigned",
                   "New task for " + agent + ": " + title + " [" + Or(priority, "MEDIUM") + "]")
  }

  /** The message `send_message` posts. */
  function SentMessage(to: Option<string>, message: string, nowIso: string): ChannelMessage {
    ChannelMessage(nowIso, "james", Or(to, "team"), "message", message)
  }

  /** Appends a note to the channel file: a file that cannot be read makes
      the handler answer 500, leaving the files as they are at that point. */
  function Notify(files: Files, note: ChannelMessage, codec: Codec, done: PostReply): (Files, PostReply) {
    if files.channel.None? then (files, ServerError)
    else (files.(channel := Some(AppendLine(files.channel.value, note, codec))), done)
  }

  /** `update_essence`, with the agent check `target`. */
  function UpdateEssenceWith(target: string -> bool, b: PostBody, files: Files, nowIso: string,
                             codec: Codec): (Files, PostReply)
  {
    if !Truthy(b.agent) || !Truthy(b.content) || !target(b.agent.value) then (files, Rejected("Invalid agent or content"))
    else if b.agent.value !in AgentFiles then (files, ServerError)
    else
      var file := AgentFiles[b.agent.value];
      if file !in files.essences then (files, ServerError)
      else
        var updated := files.(essences := files.essences[file := AppendEssence(files.essences[file], b.content.value)]);
        Notify(updated, EssenceNote(b.agent.value, b.content.value, nowIso), codec, Success)
  }

  /** `create_task`. */
  function CreateTask(b: PostBody, files: Files, nowMs: nat, nowIso: string, codec: Codec): (Files, PostReply) {
    if !Truthy(b.agent) || !Truthy(b.title) then (files, Rejected("Missing agent or title"))
    else if files.ledger.Unreadable? || files.ledger.activeTasks.None? then (files, ServerError)
    else
      var task := NewTask(b.agent.value, b.title.value, b.priority, b.notes, nowMs, nowIso);
      var ledger := files.ledger.(activeTasks := Some(files.ledger.activeTasks.value + [task]), lastUpdated := nowIso);
      Notify(files.(ledger := ledger), TaskNote(b.agent.value, b.title.value, b.priority, nowIso), codec,
             TaskCreated(task))
  }

  /** `send_message`. */
  function SendMessage(b: PostBody, files: Files, nowIso: string, codec: Codec): (Files, PostReply) {
    if !Truthy(b.message) then (files, Rejected("Missing message"))
    else Notify(files, SentMessage(b.to, b.message.value, nowIso), codec, Success)
  }

  /** `POST /api/team` as written, agent check included. */
  function TeamPostAsWritten(body: Option<PostBody>, files: Files, nowMs: nat, nowIso: string, codec: Codec)
    : (Files, PostReply)
  {
    match body
    case None => (files, Crashed)
    case Some(b) =>
      if b.action == Some("update_essence") then UpdateEssenceWith(EssenceTargetAsWritten, b, files, nowIso, codec)
      else if b.action == Some("create_task") then CreateTask(b, files, nowMs, nowIso, codec)
      else if b.action == Some("send_message") then SendMessage(b, files, nowIso, codec)
      else (files, Rejected("Unknown action"))
  }

  /** `POST /api/team`, with the agent check as intended. */
  function TeamPost(body: Option<PostBody>, files: Files, nowMs: nat, nowIso: string, codec: Codec)
    : (Files, PostReply)
  {
    match body
    case None => (files, Crashed)
    case Some(b) =>
      if b.action == Some("update_essence") then UpdateEssenceWith(EssenceTarget, b, files, nowIso, codec)
      else if b.action == Some("create_task") then CreateTask(b, files, nowMs, nowIso, codec)
      else if b.action == Some("send_message") then SendMessage(b, files, nowIso, codec)
      else (files, Rejected("Unknown action"))
  }

  /** An inherited property name passes the written agent check, and the
      update then fails inside its `try` with a 500; the intended check
      answers 400. */
  lemma InheritedAgentName(files: Files, nowMs: nat, nowIso: string, codec: Codec)
    ensures var b := PostBody(Some("update_essence"), Some("toString"), Some("be brief"), None, None, None, None, None);
      && TeamPostAsWritten(Some(b), files, nowMs, nowIso, codec) == (files, ServerError)
      && TeamPost(Some(b), files, nowMs, nowIso, codec) == (files, Rejected("Invalid agent or content"))
  {
    assert "toString" in ObjectPrototypeKeys;
    assert "toString" !in AgentFiles;
  }

  /** With the intended check, `update_essence` answers 400 exactly when the
      agent or the content is missing or the agent is not one of the five,
      and then changes no file. */
  lemma UpdateEssenceValidation(b: PostBody, files: Files, nowIso: string, codec: Codec)
    requires b.action == Some("update_essence")
    ensures var (files', reply) := TeamPost(Some(b), files, 0, nowIso, codec);
      (reply == Rejected("Invalid agent or content") <==>
         !Truthy(b.agent) || !Truthy(b.content) || b.agent.value !in AgentFiles)
      && (reply.Rejected? ==> files' == files)
  {
  }

  /** A valid essence update on readable files rewrites that agent's file as
      the append of the trimmed content, and notes it on the channel. */
  lemma UpdateEssenceWrites(b: PostBody, files: Files, nowIso: string, codec: Codec)
    requires b.action == Some("update_essence") && Truthy(b.agent) && EssenceTarget(b.agent.value) && Truthy(b.content)
    requires AgentFiles[b.agent.value] in files.essences && files.channel.Some?
    ensures var (files', reply) := TeamPost(Some(b), files, 0, nowIso, codec);
      var file := AgentFiles[b.agent.value];
      && reply == Success
      && files'.essences == files.essences[file := AppendEssence(files.essences[file], b.content.value)]
      && files'.ledger == files.ledger
      && files'.channel == Some(AppendLine(files.channel.value, EssenceNote(b.agent.value, b.content.value, nowIso), codec))
  {
  }

  /** `create_task` answers 400 without an agent or a title; otherwise, on a
      readable ledger with a task list and a readable channel, it appends
      exactly one task, `NewTask` of the request, at the end of the active
      tasks, leaving the earlier ones and the completed list unchanged,
      stamps the ledger with the time, and notes the task on the channel. */
  lemma CreateTaskAppends(b: PostBody, files: Files, nowMs: nat, nowIso: string, codec: Codec)
    requires b.action == Some("create_task")
    ensures !Truthy(b.agent) || !Truthy(b.title) ==>
      TeamPost(Some(b), files, nowMs, nowIso, codec) == (files, Rejected("Missing agent or title"))
    ensures Truthy(b.agent) && Truthy(b.title) && files.ledger.Ledger? && files.ledger.activeTasks.Some?
            && files.channel.Some? ==>
      var (files', reply) := TeamPost(Some(b), files, nowMs, nowIso, codec);
      var old_ := files.ledger.activeTasks.value;
      && reply == TaskCreated(NewTask(b.agent.value, b.title.value, b.priority, b.notes, nowMs, nowIso))
      && reply.task.status == "pending" && reply.task.assignedTo == b.agent.value
      && files'.ledger.activeTasks.Some?
      && |files'.ledger.activeTasks.value| == |old_| + 1
      && files'.ledger.activeTasks.value[..|old_|] == old_
      && files'.ledger.activeTasks.value[|old_|] == reply.task
      && files'.ledger.completedToday == files.ledger.completedToday
      && files'.ledger.lastUpdated == nowIso
      && files'.essences == files.essences
      && files'.channel == Some(AppendLine(files.channel.value,
                                           TaskNote(b.agent.value, b.title.value, b.priority, nowIso), codec))
  {
  }

  /** `create_task` on a ledger without an `active_tasks` list fails with a
      500 (the `push` throws), although the tasks read treats that list as
      empty. */
  lemma CreateTaskNeedsList(b: PostBody, files: Files, nowMs: nat, nowIso: string, codec: Codec)
    requires b.action == Some("create_task") && Truthy(b.agent) && Truthy(b.title)
    requires files.ledger.Ledger? && files.ledger.activeTasks.None?
    ensures TeamPost(Some(b), files, nowMs, nowIso, codec) == (files, ServerError)
    ensures ReadTasks(files.ledger).tasks == []
  {
  }

  /** The ledger is written before the channel is read: with an unreadable
      channel the handler answers 500, yet the task stays recorded. */
  lemma CreateTaskPartialWrite(b: PostBody, files: Files, nowMs: nat, nowIso: string, codec: Codec)
    requires b.action == Some("create_task") && Truthy(b.agent) && Truthy(b.title)
    requires files.ledger.Ledger? && files.ledger.activeTasks.Some? && files.channel.None?
    ensures var (files', reply) := TeamPost(Some(b), files, nowMs, nowIso, codec);
      && reply == ServerError
      && files'.ledger.activeTasks == Some(files.ledger.activeTasks.value
           + [NewTask(b.agent.value, b.title.value, b.priority, b.notes, nowMs, nowIso)])
      && files'.channel == None
  {
  }

  /** `send_message` answers 400 without a message; otherwise it posts the
      message to `to`, or to "team" when none is given, and a channel read
      then sees it last. */
  lemma SendMessagePosts(b: PostBody, files: Files, nowIso: string, codec: Codec)
    requires b.action == Some("send_message")
    requires files.channel.Some? && (files.channel.value == [] || files.channel.value[|files.channel.value| - 1] == '\n')
    requires Truthy(b.message) ==> RoundTrips(codec, SentMessage(b.to, b.message.value, nowIso))
    ensures !Truthy(b.message) ==> TeamPost(Some(b), files, 0, nowIso, codec) == (files, Rejected("Missing message"))
    ensures Truthy(b.message) ==>
      var (files', reply) := TeamPost(Some(b), files, 0, nowIso, codec);
      var msgs := ChannelTail(files'.channel.value, codec.decode);
      && reply == Success
      && |msgs| >= 1 && msgs[|msgs| - 1].msg == b.message.value
      && msgs[|msgs| - 1].to == (if Truthy(b.to) then b.to.value else "team")
  {
    if Truthy(b.message) {
      var m := SentMessage(b.to, b.message.value, nowIso);
      var raw := files.channel.value;
      assert TeamPost(Some(b), files, 0, nowIso, codec) == (files.(channel := Some(AppendLine(raw, m, codec))), Success);
      ChannelReadSeesAppend(raw, m, codec);
    }
  }

  /** Any other action is answered 400 "Unknown action" by both handlers,
      and the files are unchanged. */
  lemma UnknownTeamActions(b: PostBody, files: Files, nowMs: nat, nowIso: string, codec: Codec)
    requires b.action != Some("update_essence") && b.action != Some("create_task") && b.action != Some("send_message")
    ensures TeamPost(Some(b), files, nowMs, nowIso, codec) == (files, Rejected("Unknown action"))
    ensures PostStatus(Rejected("Unknown action")) == 400
  {
  }
}
