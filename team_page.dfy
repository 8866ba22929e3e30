/** The team page: the agents' task lists, counts and channel preview, and the
    three forms (new task, essence note, message) that post to `/api/team`. */
module TeamPage {
  import opened Text
  import TeamApi

  type Task = TeamApi.Task
  type ChannelMessage = TeamApi.ChannelMessage

  /** `AGENTS`: the ids of the agent cards, in display order. */
  const AgentIds: seq<string> := ["cortana", "forge", "klaus", "axwell", "mum"]

  /** Every agent the page offers is one the route has an essence file for. */
  lemma AgentIdsHaveFiles()
    ensures forall id :: id in AgentIds <==> id in TeamApi.AgentFiles
  {
  }

  // ---------------------------------------------------------------- filters

  /** `xs.filter(p)`. */
  function Filter<T>(xs: seq<T>, p: T -> bool): seq<T> {
    if xs == [] then []
    else
      var last := xs[|xs| - 1];
      Filter(xs[..|xs| - 1], p) + (if p(last) then [last] else [])
  }

  /** A filter keeps exactly the elements that pass. */
  lemma {:induction false} FilterMembers<T>(xs: seq<T>, p: T -> bool)
    ensures forall x :: x in Filter(xs, p) <==> x in xs && p(x)
  {
    if xs != [] {
      var front := xs[..|xs| - 1];
      FilterMembers(front, p);
      assert xs == front + [xs[|xs| - 1]];
    }
  }

  /** Filtering a concatenation filters each part and keeps the parts in
      order: a filter keeps the relative order of what it keeps. */
  lemma {:induction false} FilterAppend<T>(a: seq<T>, b: seq<T>, p: T -> bool)
    ensures Filter(a + b, p) == Filter(a, p) + Filter(b, p)
    decreases |b|
  {
    if b == [] {
      assert a + b == a;
    } else {
      var front := b[..|b| - 1];
      FilterAppend(a, front, p);
      assert (a + b)[..|a + b| - 1] == a + front;
      assert (a + b)[|a + b| - 1] == b[|b| - 1];
    }
  }

  /** The positions of `xs` whose element passes `p`. */
  function Passing<T>(xs: seq<T>, p: T -> bool): set<int> {
    set i | 0 <= i < |xs| && p(xs[i])
  }

  /** The length of a filter counts the positions whose element passes. */
  lemma {:induction false} FilterCount<T>(xs: seq<T>, p: T -> bool)
    ensures |Filter(xs, p)| == |Passing(xs, p)|
  {
    if xs != [] {
      var n := |xs| - 1;
      var front := xs[..n];
      FilterCount(front, p);
      var before := Passing(front, p);
      var now := Passing(xs, p);
      if p(xs[n]) {
        assert now == before + {n};
        assert n !in before;
      } else {
        assert now == before;
      }
    }
  }

  /** `t.assigned_to === agent || t.assigned_to?.includes(agent)`. */
  predicate Assigned(t: Task, agent: string) {
    t.assignedTo == agent || Contains(t.assignedTo, agent)
  }

  /** The equality test is subsumed: a task is assigned to an agent exactly
      when its `assigned_to` contains the agent's id. */
  lemma AssignedMeansContains(t: Task, agent: string)
    ensures Assigned(t, agent) <==> Contains(t.assignedTo, agent)
  {
    if t.assignedTo == agent {
      assert OccursAt(t.assignedTo, agent, 0);
    }
  }

  function AssignedTo(agent: string): Task -> bool {
    t => Assigned(t, agent)
  }

  predicate IsOpen(t: Task) {
    t.status != "complete"
  }

  function OpenFor(agent: string): Task -> bool {
    t => Assigned(t, agent) && IsOpen(t)
  }

  /** `agentTasks`: every task when no agent is selected, otherwise the tasks
      assigned to the selected one. */
  function AgentTasks(tasks: seq<Task>, selected: Option<string>): seq<Task> {
    if Truthy(selected) then Filter(tasks, AssignedTo(selected.value)) else tasks
  }

  /** With no agent selected the list is all tasks; with one, it holds
      exactly the tasks whose `assigned_to` contains the agent's id. */
  lemma AgentTasksMembers(tasks: seq<Task>, selected: Option<string>)
    ensures !Truthy(selected) ==> AgentTasks(tasks, selected) == tasks
    ensures Truthy(selected) ==> forall t :: t in AgentTasks(tasks, selected) <==>
      t in tasks && Contains(t.assignedTo, selected.value)
  {
    if Truthy(selected) {
      FilterMembers(tasks, AssignedTo(selected.value));
      forall t | t in tasks
        ensures Assigned(t, selected.value) <==> Contains(t.assignedTo, selected.value)
      {
        AssignedMeansContains(t, selected.value);
      }
    }
  }

  /** The selected agent's tasks keep the ledger's order. */
  lemma AgentTasksOrder(a: seq<Task>, b: seq<Task>, selected: Option<string>)
    ensures AgentTasks(a + b, selected) == AgentTasks(a, selected) + AgentTasks(b, selected)
  {
    if Truthy(selected) {
      FilterAppend(a, b, AssignedTo(selected.value));
    }
  }

  // ----------------------------------------------------------------- counts

  /** The "active tasks" figure of the overview entry. */
  function ActiveCount(tasks: seq<Task>): nat {
    |Filter(tasks, IsOpen)|
  }

  /** The task figure of an agent's entry. */
  function AgentTaskCount(tasks: seq<Task>, agent: string): nat {
    |Filter(tasks, OpenFor(agent))|
  }

  /** The active count is the number of tasks whose status is not
      "complete". */
  lemma ActiveCountMeans(tasks: seq<Task>)
    ensures ActiveCount(tasks) == |set i | 0 <= i < |tasks| && tasks[i].status != "complete"|
  {
    FilterCount(tasks, IsOpen);
    assert Passing(tasks, IsOpen)
        == (set i | 0 <= i < |tasks| && tasks[i].status != "complete");
  }

  /** An agent's count is the number of tasks assigned to it and not
      complete. */
  lemma AgentTaskCountMeans(tasks: seq<Task>, agent: string)
    ensures AgentTaskCount(tasks, agent) ==
      |set i | 0 <= i < |tasks| && Assigned(tasks[i], agent) && tasks[i].status != "complete"|
  {
    FilterCount(tasks, OpenFor(agent));
    assert Passing(tasks, OpenFor(agent))
        == (set i | 0 <= i < |tasks| && Assigned(tasks[i], agent) && tasks[i].status != "complete");
  }

  /** A filter by a stronger test keeps no more elements. */
  lemma {:induction false} FilterStronger<T>(xs: seq<T>, q: T -> bool, p: T -> bool)
    requires forall x :: q(x) ==> p(x)
    ensures |Filter(xs, q)| <= |Filter(xs, p)|
  {
    if xs != [] {
      FilterStronger(xs[..|xs| - 1], q, p);
    }
  }

  /** No agent's count exceeds the active count. */
  lemma AgentCountBound(tasks: seq<Task>, agent: string)
    ensures AgentTaskCount(tasks, agent) <= ActiveCount(tasks)
  {
    FilterStronger(tasks, OpenFor(agent), IsOpen);
  }

  // ---------------------------------------------------------------- colours

  function PrioColor(p: string): string {
    if p == "HIGH" then "#ff4444" else if p == "MEDIUM" then "#ffaa00" else "var(--text-tertiary)"
  }

  function StatusColor(s: string): string {
    if s == "complete" then "var(--green)" else if s == "in_progress" then "#ffaa00" else "var(--text-tertiary)"
  }

  /** Each colour stands for exactly one priority or status class: red for
      HIGH, amber for MEDIUM, tertiary for any other priority; green for
      complete, amber for in_progress, tertiary for any other status. */
  lemma ColorsMean(p: string, s: string)
    ensures PrioColor(p) == "#ff4444" <==> p == "HIGH"
    ensures PrioColor(p) == "#ffaa00" <==> p == "MEDIUM"
    ensures PrioColor(p) == "var(--text-tertiary)" <==> p != "HIGH" && p != "MEDIUM"
    ensures StatusColor(s) == "var(--green)" <==> s == "complete"
    ensures StatusColor(s) == "#ffaa00" <==> s == "in_progress"
    ensures StatusColor(s) == "var(--text-tertiary)" <==> s != "complete" && s != "in_progress"
  {
  }

  // --------------------------------------------------------------- previews

  /** One line of the sidebar's channel preview: sender and shortened text. */
  datatype PreviewLine = PreviewLine(from: string, text: string)

  /** `channel.slice(-4)`, each message cut to 60 characters plus "...". */
  function ChannelPreview(channel: seq<ChannelMessage>): seq<PreviewLine> {
    var window := Last(channel, 4);
    seq(|window|, i requires 0 <= i < |window| => PreviewLine(window[i].from, Truncate(window[i].msg, 60)))
  }

  /** The preview shows the newest four messages (or all, if fewer) in
      order; a text of more than 60 characters shows its first 60 and an
      ellipsis, a shorter one shows whole. */
  lemma ChannelPreviewShape(channel: seq<ChannelMessage>)
    ensures var r := ChannelPreview(channel);
      && |r| == (if |channel| < 4 then |channel| else 4)
      && forall i :: 0 <= i < |r| ==>
           var m := channel[|channel| - |r| + i];
           && r[i].from == m.from
           && (|m.msg| <= 60 ==> r[i].text == m.msg)
           && (|m.msg| > 60 ==> r[i].text == m.msg[..60] + "...")
  {
    var r := ChannelPreview(channel);
    forall i | 0 <= i < |r|
      ensures |channel[|channel| - |r| + i].msg| > 60 ==>
        r[i].text == channel[|channel| - |r| + i].msg[..60] + "..."
    {
      TruncateShape(channel[|channel| - |r| + i].msg, 60);
    }
  }

  /** A task's notes line: absent for empty notes, else cut at 120. */
  function NotesPreview(notes: string): Option<string> {
    if notes == "" then None else Some(Truncate(notes, 120))
  }

  /** Notes show only when present, whole up to 120 characters, and
      otherwise as their first 120 characters and an ellipsis. */
  lemma NotesPreviewShape(notes: string)
    ensures NotesPreview(notes).None? <==> notes == ""
    ensures 0 < |notes| <= 120 ==> NotesPreview(notes) == Some(notes)
    ensures |notes| > 120 ==> NotesPreview(notes) == Some(notes[..120] + "...")
  {
    TruncateShape(notes, 120);
  }

  /** The essence panel: nothing without a selection, the essence text when
      it is loaded and non-empty, else "Loading...". */
  function EssenceShown(essences: map<string, string>, selected: Option<string>): string {
    if !Truthy(selected) then ""
    else if selected.value in essences && essences[selected.value] != "" then essences[selected.value]
    else "Loading..."
  }

  /** With the route's essences loaded, the panel of a selected page agent
      shows its file's text, and "Loading..." for good when the file is
      missing or empty; with no selection it is empty. */
  lemma EssencePanelText(essences: map<string, string>, files: map<string, string>, agent: string)
    requires essences.Keys == TeamApi.AgentFiles.Keys
    requires forall name :: name in essences ==>
      essences[name] == if TeamApi.AgentFiles[name] in files then files[TeamApi.AgentFiles[name]] else ""
    requires agent in AgentIds
    ensures EssenceShown(essences, None) == ""
    ensures agent in TeamApi.AgentFiles
    ensures var file := TeamApi.AgentFiles[agent];
      EssenceShown(essences, Some(agent)) == if file in files && files[file] != "" then files[file] else "Loading..."
  {
    AgentIdsHaveFiles();
  }

  // ---------------------------------------------------------------- refresh

  /** What `fetchData` receives per list: `None` when the request or its
      JSON failed (the `.catch` default) or the field is absent. */
  function OrEmpty<T>(x: Option<seq<T>>): seq<T> {
    if x.Some? then x.value else []
  }

  // ---------------------------------------------------------------- forms

  /** The body `submitTask` posts, given the trimmed title and notes. */
  function TaskRequest(agent: string, title: string, priority: string, notes: string): TeamApi.PostBody {
    TeamApi.PostBody(Some("create_task"), Some(agent), None, Some(title), Some(priority), Some(notes), None, None)
  }

  /** The body `submitEssence` posts, given the trimmed text. */
  function EssenceRequest(agent: string, text: string): TeamApi.PostBody {
    TeamApi.PostBody(Some("update_essence"), Some(agent), Some(text), None, None, None, None, None)
  }

  /** The body `submitMessage` posts, given the trimmed text. */
  function MessageRequest(to: string, text: string): TeamApi.PostBody {
    TeamApi.PostBody(Some("send_message"), None, None, None, None, None, Some(to), Some(text))
  }

  /** What the task form sends passes the route's validation: a non-blank
      title for a selected agent is never answered 400, and the task created
      carries the title, priority and notes as sent. */
  lemma TaskRequestAccepted(agent: string, title: string, priority: string, notes: string,
                            files: TeamApi.Files, nowMs: nat, nowIso: string, codec: TeamApi.Codec)
    requires agent != "" && title != ""
    ensures var (_, reply) := TeamApi.TeamPost(Some(TaskRequest(agent, title, priority, notes)), files, nowMs, nowIso, codec);
      && !reply.Rejected?
      && (reply.TaskCreated? ==> reply.task == TeamApi.NewTask(agent, title, Some(priority), Some(notes), nowMs, nowIso))
  {
  }

  /** An essence note for one of the page's agents with non-blank text is
      never answered 400. */
  lemma EssenceRequestAccepted(agent: string, text: string, files: TeamApi.Files, nowIso: string,
                               codec: TeamApi.Codec)
    requires agent in AgentIds && text != ""
    ensures !TeamApi.TeamPost(Some(EssenceRequest(agent, text)), files, 0, nowIso, codec).1.Rejected?
  {
    AgentIdsHaveFiles();
  }

  /** A non-blank message is never answered 400, and is addressed to the
      form's recipient (to "team" when that is blank). */
  lemma MessageRequestAccepted(to: string, text: string, files: TeamApi.Files, nowIso: string,
                               codec: TeamApi.Codec)
    requires text != ""
    ensures var (files', reply) := TeamApi.TeamPost(Some(MessageRequest(to, text)), files, 0, nowIso, codec);
      && !reply.Rejected?
      && (files.channel.Some? ==>
            files'.channel == Some(TeamApi.AppendLine(files.channel.value,
                                                      TeamApi.SentMessage(Some(to), text, nowIso), codec)))
  {
  }

  /** A send button is enabled when nothing is being submitted and its text
      is not blank. */
  predicate ButtonEnabled(submitting: bool, text: string) {
    !submitting && Trim(text) != ""
  }

  /** Whether `submitTask` and `submitEssence` get past their guard. */
  predicate SendsForAgent(text: string, selected: Option<string>) {
    Trim(text) != "" && Truthy(selected)
  }

  /** An enabled button's handler gets past its text guard: the message form
      sends a message the route accepts, and an agent form with an agent
      selected sends. A blank text disables the button, and its handler would
      send nothing either. */
  lemma ButtonFollowsGuard(submitting: bool, text: string, to: string, selected: Option<string>,
                           files: TeamApi.Files, nowIso: string, codec: TeamApi.Codec)
    ensures ButtonEnabled(submitting, text) ==>
      !TeamApi.TeamPost(Some(MessageRequest(to, Trim(text))), files, 0, nowIso, codec).1.Rejected?
    ensures ButtonEnabled(submitting, text) && Truthy(selected) ==> SendsForAgent(text, selected)
    ensures !ButtonEnabled(false, text) ==> !SendsForAgent(text, selected)
  {
    if ButtonEnabled(submitting, text) {
      MessageRequestAccepted(to, Trim(text), files, nowIso, codec);
    }
  }

  datatype View = Overview | Profile | Tasks | ChannelView

  /** The page's state: the loaded lists, the selection and the three forms. */
  class TeamForm {
    var essences: map<string, string>
    var tasks: seq<Task>
    var completed: seq<Task>
    var channel: seq<ChannelMessage>
    var selectedAgent: Option<string>
    var view: View
    var showTaskModal: bool
    var showEssenceModal: bool
    var showMessageModal: bool
    var taskTitle: string
    var taskPriority: string
    var taskNotes: string
    var essenceText: string
    var messageText: string
    var messageTo: string
    var submitting: bool

    constructor ()
      ensures essences == map[] && tasks == [] && completed == [] && channel == []
      ensures selectedAgent == None && view == Overview
      ensures !showTaskModal && !showEssenceModal && !showMessageModal
      ensures taskTitle == "" && taskPriority == "MEDIUM" && taskNotes == ""
      ensures essenceText == "" && messageText == "" && messageTo == "team" && !submitting
    {
      essences, tasks, completed, channel := map[], [], [], [];
      selectedAgent, view := None, Overview;
      showTaskModal, showEssenceModal, showMessageModal := false, false, false;
      taskTitle, taskPriority, taskNotes := "", "MEDIUM", "";
      essenceText, messageText, messageTo := "", "", "team";
      submitting := false;
    }

    /** `fetchData`: each list takes what the route returned, or its empty
        default; nothing else changes. */
    method Refresh(e: Option<map<string, string>>, t: Option<seq<Task>>, c: Option<seq<Task>>,
                   ch: Option<seq<ChannelMessage>>)
      modifies this`essences, this`tasks, this`completed, this`channel
      ensures essences == (if e.Some? then e.value else map[])
      ensures tasks == OrEmpty(t) && completed == OrEmpty(c) && channel == OrEmpty(ch)
    {
      essences := if e.Some? then e.value else map[];
      tasks := OrEmpty(t);
      completed := OrEmpty(c);
      channel := OrEmpty(ch);
    }

    /** The overview entry: clears the selection. */
    method SelectAll()
      modifies this`selectedAgent, this`view
      ensures selectedAgent == None && view == Overview
    {
      selectedAgent, view := None, Overview;
    }

    /** An agent entry: selects it and shows its profile. */
    method SelectAgent(id: string)
      modifies this`selectedAgent, this`view
      ensures selectedAgent == Some(id) && view == Profile
    {
      selectedAgent, view := Some(id), Profile;
    }

    /** The broadcast button: opens the message form addressed to the team. */
    method Broadcast()
      modifies this`showMessageModal, this`messageTo
      ensures showMessageModal && messageTo == "team"
    {
      showMessageModal, messageTo := true, "team";
    }

    /** `submitTask`. `delivered` is false when the `fetch` rejects: the
        handler then stops at its `await`, leaving `submitting` set and the
        form as it was. The reply's content is not looked at. */
    method SubmitTask(delivered: bool) returns (sent: Option<TeamApi.PostBody>)
      modifies this`submitting, this`taskTitle, this`taskNotes, this`showTaskModal
      ensures !SendsForAgent(old(taskTitle), old(selectedAgent)) ==>
        sent == None && unchanged(this)
      ensures SendsForAgent(old(taskTitle), old(selectedAgent)) ==>
        && sent == Some(TaskRequest(old(selectedAgent).value, Trim(old(taskTitle)), taskPriority, Trim(old(taskNotes))))
        && (delivered ==> taskTitle == "" && taskNotes == "" && !showTaskModal && !submitting)
        && (!delivered ==> submitting && taskTitle == old(taskTitle) && taskNotes == old(taskNotes)
                           && showTaskModal == old(showTaskModal))
    {
      if !SendsForAgent(taskTitle, selectedAgent) {
        return None;
      }
      sent := Some(TaskRequest(selectedAgent.value, Trim(taskTitle), taskPriority, Trim(taskNotes)));
      submitting := true;
      if !delivered {
        return;
      }
      taskTitle, taskNotes, showTaskModal := "", "", false;
      submitting := false;
    }

    /** `submitEssence`, with `delivered` as in `SubmitTask`. */
    method SubmitEssence(delivered: bool) returns (sent: Option<TeamApi.PostBody>)
      modifies this`submitting, this`essenceText, this`showEssenceModal
      ensures !SendsForAgent(old(essenceText), old(selectedAgent)) ==>
        sent == None && unchanged(this)
      ensures SendsForAgent(old(essenceText), old(selectedAgent)) ==>
        && sent == Some(EssenceRequest(old(selectedAgent).value, Trim(old(essenceText))))
        && (delivered ==> essenceText == "" && !showEssenceModal && !submitting)
        && (!delivered ==> submitting && essenceText == old(essenceText) && showEssenceModal == old(showEssenceModal))
    {
      if !SendsForAgent(essenceText, selectedAgent) {
        return None;
      }
      sent := Some(EssenceRequest(selectedAgent.value, Trim(essenceText)));
      submitting := true;
      if !delivered {
        return;
      }
      essenceText, showEssenceModal := "", false;
      submitting := false;
    }

    /** `submitMessage`: needs no selected agent. */
    method SubmitMessage(delivered: bool) returns (sent: Option<TeamApi.PostBody>)
      modifies this`submitting, this`messageText, this`showMessageModal
      ensures Trim(old(messageText)) == "" ==> sent == None && unchanged(this)
      ensures Trim(old(messageText)) != "" ==>
        && sent == Some(MessageRequest(messageTo, Trim(old(messageText))))
        && (delivered ==> messageText == "" && !showMessageModal && !submitting)
        && (!delivered ==> submitting && messageText == old(messageText) && showMessageModal == old(showMessageModal))
    {
      if Trim(messageText) == "" {
        return None;
      }
      sent := Some(MessageRequest(messageTo, Trim(messageText)));
      submitting := true;
      if !delivered {
        return;
      }
      messageText, showMessageModal := "", false;
      submitting := false;
    }
  }
}
