# axe-live, modelled in Dafny

axe-live is a Next.js dashboard for a small fleet of machines (JL1, JL2, JLa,
JLb) that run AI agents. This project models the decision logic and the
mutable state behind it, with the network, the clock, the random source and
the files replaced by inputs:

- **`/api/wake`** (module `Wake`) — classifies service probes and the host
  ping, diagnoses a machine through a five-branch first-match chain (sentence
  plus ordered fix steps), and answers the GET and POST requests, including
  their validation.
- **`/api/auth`** (module `Auth`) — the process-wide session store (token →
  expiry in ms) as a class whose methods are proved against pure step
  functions; the hex token encoding and its decoding; the sweep that deletes
  expired entries while walking the map; the `check`/`poll` GET actions and
  the `password`/`unlock` POST actions.
- **`/api/team`** (module `TeamApi`) — reading the essence files, the task
  ledger and the channel tail (last 30 lines, unparsable ones dropped);
  `update_essence`, `create_task` and `send_message` over a value holding the
  files, which the handler returns updated.
- **The auth gate** (module `AuthGate`) — the `null`/`true`/`false` state
  machine in front of every page, linked to the auth route's replies.
- **The home page** (module `Dashboard`) — the event feed capped at 500, the
  fallback poll, the send box, the event cards and the health line.
- **The live-feeds page** (module `LiveFeeds`) — per-machine feeds capped at
  100, the poll of each machine, the agent activity summaries, the header
  counts and the Wake / Diagnose button.
- **The apps page** (module `Apps`) — grouping by machine, each card's status
  word and colour, and the health percentage.
- **The team page** (module `TeamPage`) — the task filter and counts, colours
  and previews, and the three submit forms, whose bodies are shown to pass the
  route's validation.

Module `Text` holds the JavaScript behaviour the rest relies on. It defines
truthiness and `||` defaults, `slice`, `trim`, `split`, number printing and
lower-casing. It also holds the set of names every plain object inherits.

Where the code is imperative it is modelled as a Dafny `class` with
`modifies` clauses, and each method's `ensures` ties its new state to a pure
function of the old state; the properties are lemmas about those functions.
The home page's swarm-end line is modelled with the characters its source
text holds: the em dash there is mis-encoded and shows as "â€”".

Three behaviours are modelled as written and stated in contracts:

- `create_task` writes the ledger before it reads the channel (`TeamApi.CreateTaskPartialWrite`). An unreadable
  channel therefore leaves the task recorded while the reply is a 500.
- The team page sets `submitting` and then awaits `fetch` without a `catch` (`TeamPage.TeamForm.SubmitTask`).
  A rejected request therefore leaves `submitting` set and the form as it
  was.
- The apps page groups services into a plain object with
  `(acc[m] = acc[m] || []).push(svc)` (`Apps.GroupByMachine`). A machine named
  after an `Object.prototype` member ("constructor", "toString", "__proto__")
  finds a truthy inherited value without `push`, so the render throws; the
  method answers `None` exactly then.

## Model

| member | source | states |
|---|---|---|
| `Wake.ProbeService` | src/app/api/wake/route.ts:33-50 | a service is up exactly when its endpoint answered 2xx; the latency is passed through; a failed fetch carries no detail; a detail is never empty |
| `Wake.ServiceResults` | src/app/api/wake/route.ts:79-89 | one result per configured service |
| `Wake.ServiceResultsAt` | src/app/api/wake/route.ts:79-89 | result i carries service i's name, port and start command and its own probe's verdict, so length and order are preserved |
| `Wake.BuildDiagnosis` | src/app/api/wake/route.ts:94-125 | the branch-by-branch assignment with `unshift` of the SSH step builds exactly the diagnosis of the first-match chain |
| `Wake.UnreachableWins` | src/app/api/wake/route.ts:98-105 | an unreachable host with at least one service gets the unreachable sentence and exactly four steps, whatever its services report |
| `Wake.NoneRespondingSteps` | src/app/api/wake/route.ts:106-111 | a reachable host with every service down gets the SSH step then one Start step per service in service order: n + 1 steps |
| `Wake.SomeDownSteps` | src/app/api/wake/route.ts:112-118 | with some but not all services up, k is the number of down services (1 ≤ k < n), the sentence says "1 service is" or "k services are" down, and the steps are SSH then one Start step per down service in order |
| `Wake.SomeDownTextPlural` | src/app/api/wake/route.ts:114 | the down-count sentence is singular exactly for one service |
| `Wake.NoServicesAwaitDeployment` | src/app/api/wake/route.ts:91-92 | zero services are "all up" and "none up", and the machine is reported as awaiting deployment even when unreachable |
| `Wake.EmptyStepsIffOperational` | src/app/api/wake/route.ts:122-124 | the fix steps are empty exactly when the host is reachable and all of at least one service are up, and then the sentence is the operational one with the service count |
| `Wake.OnlyOperationalHasNoSteps` | src/app/api/wake/route.ts:98-125 | every branch but the last lists at least one step |
| `Wake.StartStepsAt` | src/app/api/wake/route.ts:108-110 | one Start step per service, in order |
| `Wake.StartStepText` | src/app/api/wake/route.ts:109 | a Start step gives the non-empty start command, else "Check port" and the port |
| `Wake.DownCount` | src/app/api/wake/route.ts:113 | the filter has one entry per service that is not up |
| `Wake.DownMembers` | src/app/api/wake/route.ts:113 | the filter holds exactly the services that are not up |
| `Wake.DownExtremes` | src/app/api/wake/route.ts:91-92 | the filter is empty exactly when all are up, is everything when none is, and is shorter when one is up |
| `Wake.DownSnoc` | src/app/api/wake/route.ts:113 | filtering a list with one more result extends the filter by that result exactly when it is down |
| `Wake.KnownIdsNonEmpty` | src/app/api/wake/route.ts:4-31 | no configured machine id is empty, so the guard's truthiness test adds nothing for them |
| `Wake.ConfiguredStartCommands` | src/app/api/wake/route.ts:4-31 | every configured service has a non-empty start command |
| `Wake.MachineReportShape` | src/app/api/wake/route.ts:127-135 | a report names the machine and its ip and carries its service results |
| `Wake.MachineReportVerdicts` | src/app/api/wake/route.ts:52-67 | `allUp` is the conjunction of the results, and the host counts as reachable unless the ping was aborted (a refused connection counts as reachable) |
| `Wake.MachineReportDiagnosis` | src/app/api/wake/route.ts:94-135 | the report's sentence and steps are the chain applied to the report's own reachability and results |
| `Wake.WakeGetKnown` | src/app/api/wake/route.ts:69-78 | a GET for a known machine answers with that machine's report |
| `Wake.WakeRejectsExactlyUnknown` | src/app/api/wake/route.ts:71-74 | GET and POST answer 400 "Unknown machine" exactly for a missing, empty or unknown id |
| `Wake.FindServiceFirst` | src/app/api/wake/route.ts:150 | the lookup finds the first service with that name, and nothing exactly when none has it |
| `Wake.WakeOneShape` | src/app/api/wake/route.ts:149-159 | 400 "Unknown service" exactly when no service has the name; otherwise the reply names the service and omits the start command exactly when it is up |
| `Wake.WakeAllShape` | src/app/api/wake/route.ts:163-174 | every service is reported in order, the start command is omitted exactly for those up, and `allUp` is the conjunction of all probes |
| `Wake.WakePostKnown` | src/app/api/wake/route.ts:139-175 | a known machine goes to the one-service branch for a non-empty service name and to the all-services branch otherwise |
| `Wake.PrototypeKeyReachesWake` | src/app/api/wake/route.ts:72 | the id "constructor" gets 500 from the handler as written and 400 from the corrected guard |
| `Auth.ToHex` | src/app/api/auth/route.ts:16 | `toString(16)` gives at least one digit, and exactly one below 16 |
| `Auth.ByteToHexDigits` | src/app/api/auth/route.ts:16 | each byte becomes its high and low nibble as two lower-case hex digits, zero-padded |
| `Auth.TokenRoundTrip` | src/app/api/auth/route.ts:13-17 | a token has two hex digits per byte and decodes back to the bytes in order |
| `Auth.TokenLength` | src/app/api/auth/route.ts:14-16 | 32 bytes give a 64-character token |
| `Auth.AuthenticatedIffLive` | src/app/api/auth/route.ts:30-38 | `check` passes exactly for a cookie whose token is stored with an expiry later than now |
| `Auth.SweptExactly` | src/app/api/auth/route.ts:19-24 | the sweep removes exactly the entries expiring before now and changes no value |
| `Auth.SweepKeepsBoundary` | src/app/api/auth/route.ts:22 | an entry expiring exactly now survives the sweep but `check` already rejects it |
| `Auth.SweepPreservesCheck` | src/app/api/auth/route.ts:19-24 | sweeping at now changes no `check` answer at now or later |
| `Auth.IssuedThenCheck` | src/app/api/auth/route.ts:53-55 | a freshly issued token passes `check` for exactly the next 86,400,000 ms |
| `Auth.IssuedOthers` | src/app/api/auth/route.ts:84-86 | issuing adds only the token and leaves every other token's `check` answer unchanged |
| `Auth.CheckReadsOnly` | src/app/api/auth/route.ts:30-39 | `check` never changes the store and answers by the expiry rule |
| `Auth.PollWithoutIssue` | src/app/api/auth/route.ts:42-71 | a poll answers 400 without a session id, 502 "error" when the observer fails, and echoes any status but "approved", without touching the store |
| `Auth.ApprovedPollIssues` | src/app/api/auth/route.ts:51-65 | every approved poll sweeps and inserts a fresh token that passes `check` and is set as the cookie; repeats are not deduplicated |
| `Auth.PasswordOutcomes` | src/app/api/auth/route.ts:82-98 | a wrong password is refused with the store unchanged; the right one issues a token that passes `check` |
| `Auth.StoreChangesOnlyOnIssue` | src/app/api/auth/route.ts:26-125 | only an approved poll or the right password changes the store |
| `Auth.ConfiguredPassword` | src/app/api/auth/route.ts:5 | the environment's password when set and non-empty, otherwise "vkey" |
| `Auth.UnlockForwards` | src/app/api/auth/route.ts:102-121 | `unlock` forwards the caller's address or "unknown", passes the observer's answer through or answers 502, and never touches the store |
| `Auth.UnknownActions` | src/app/api/auth/route.ts:74-124 | any other action is answered 400 "Unknown action" by both handlers, store unchanged |
| `Auth.SessionStore.constructor` | src/app/api/auth/route.ts:11 | the store starts empty |
| `Auth.SessionStore.CleanSessions` | src/app/api/auth/route.ts:19-24 | deleting while walking the entries leaves exactly the swept map |
| `Auth.SessionStore.Issue` | src/app/api/auth/route.ts:53-55 | sweeps, then stores the token made from the bytes with a 24-hour expiry |
| `Auth.SessionStore.Get` | src/app/api/auth/route.ts:26-75 | the reply and the new store are those of the GET step function |
| `Auth.SessionStore.Post` | src/app/api/auth/route.ts:77-125 | the reply and the new store are those of the POST step function |
| `TeamApi.ReadEssences` | src/app/api/team/route.ts:27-37 | every one of the five agents gets its file's text, or "" when it cannot be read |
| `TeamApi.ReadTasks` | src/app/api/team/route.ts:39-47 | the two ledger lists, each empty when absent, both empty for an unreadable ledger |
| `TeamApi.MessagesAppend` | src/app/api/team/route.ts:53-55 | parsing lines keeps their order: parsing a concatenation concatenates the parts |
| `TeamApi.MessagesFromLines` | src/app/api/team/route.ts:53-55 | no more messages than lines, and each is what some line parses to |
| `TeamApi.ChannelTailBound` | src/app/api/team/route.ts:52 | a channel read returns at most 30 messages |
| `TeamApi.TeamGet` | src/app/api/team/route.ts:24-63 | "essences" answers every agent with its file's text or "", "tasks" the ledger's lists, "channel" the last thirty messages or none; any other action gets "Unknown action" |
| `TeamApi.TrimAppendedLine` | src/app/api/team/route.ts:52 | trimming a channel file after an append keeps the new line and drops only its break |
| `TeamApi.AppendedLineIsLast` | src/app/api/team/route.ts:52-55 | a parsable line appended to a file of whole lines is the last message a read returns |
| `TeamApi.ChannelReadSeesAppend` | src/app/api/team/route.ts:152 | after a message is appended, a channel read returns it last |
| `TeamApi.WindowEndsWith` | src/app/api/team/route.ts:52-55 | the messages of the last 30 lines end with what the last line parses to |
| `TeamApi.EssenceUpdateShape` | src/app/api/team/route.ts:79 | the update keeps the old essence without trailing space as a prefix and ends with the trimmed content as its own paragraph |
| `TeamApi.TaskIdShape` | src/app/api/team/route.ts:107 | an id is "LIVE-" and the last six decimal digits of the timestamp |
| `TeamApi.NewTask` | src/app/api/team/route.ts:108-117 | the task has the id, title and agent, status "pending", origin "axe-live", priority defaulting to "MEDIUM" and notes to "" |
| `TeamApi.InheritedAgentName` | src/app/api/team/route.ts:73 | the agent "toString" passes the written check and gets 500, where the intended check answers 400 |
| `TeamApi.UpdateEssenceValidation` | src/app/api/team/route.ts:73-75 | 400 exactly when agent or content is missing or the agent is not one of the five, with no file changed |
| `TeamApi.UpdateEssenceWrites` | src/app/api/team/route.ts:76-92 | a valid update rewrites that agent's file as the append and notes it on the channel, leaving the ledger |
| `TeamApi.CreateTaskAppends` | src/app/api/team/route.ts:99-132 | 400 without agent or title; otherwise exactly the `NewTask` of the request (pending, "MEDIUM" and "" defaults) is appended after the unchanged earlier ones, the ledger is stamped with the time, and the task note is appended to the channel |
| `TeamApi.CreateTaskPartialWrite` | src/app/api/team/route.ts:118-130 | with an unreadable channel the reply is 500 while the new task stays appended to the ledger |
| `TeamApi.CreateTaskNeedsList` | src/app/api/team/route.ts:118 | a ledger without `active_tasks` makes `create_task` fail with 500, although the tasks read shows that list as empty |
| `TeamApi.SendMessagePosts` | src/app/api/team/route.ts:139-153 | 400 without a message; otherwise it is posted to `to` or "team", and a read sees it last |
| `TeamApi.UnknownTeamActions` | src/app/api/team/route.ts:159 | any other POST action is answered 400 with the files unchanged |
| `TeamPage.AgentIdsHaveFiles` | src/app/team/page.tsx:38-104 | the page offers exactly the agents the route has essence files for |
| `TeamPage.AgentTasksMembers` | src/app/team/page.tsx:206 | all tasks without a selection; otherwise exactly the tasks whose `assigned_to` contains the selected id |
| `TeamPage.AgentTasksOrder` | src/app/team/page.tsx:206 | the selected agent's tasks keep the ledger's order |
| `TeamPage.ActiveCountMeans` | src/app/team/page.tsx:267 | the active count is the number of tasks whose status is not "complete" |
| `TeamPage.AgentTaskCountMeans` | src/app/team/page.tsx:272 | an agent's count is the number of tasks assigned to it that are not complete |
| `TeamPage.AgentCountBound` | src/app/team/page.tsx:267-272 | no agent's count exceeds the active count |
| `TeamPage.ColorsMean` | src/app/team/page.tsx:209-210 | each colour stands for exactly one priority or status class |
| `TeamPage.ChannelPreviewShape` | src/app/team/page.tsx:327-333 | the newest four messages in order, each text whole up to 60 characters, else its first 60 and "..." |
| `TeamPage.NotesPreviewShape` | src/app/team/page.tsx:559-561 | notes show only when present, whole up to 120 characters, else the first 120 and "..." |
| `TeamPage.TaskRequestAccepted` | src/app/team/page.tsx:152-165 | the task form's body is never rejected by the route, and the task carries what was sent |
| `TeamPage.EssenceRequestAccepted` | src/app/team/page.tsx:171-182 | an essence note for one of the page's agents with non-blank text is never rejected |
| `TeamPage.EssencePanelText` | src/app/team/page.tsx:594 | with the route's essences loaded, a selected agent's panel shows its file's text, and "Loading..." for good when the file is missing or empty; no selection shows nothing |
| `TeamPage.ButtonFollowsGuard` | src/app/team/page.tsx:722-829 | an enabled send button's handler passes its text guard (an enabled message button sends a message the route accepts), and a blank text, which disables the button, sends nothing |
| `TeamPage.MessageRequestAccepted` | src/app/team/page.tsx:188-199 | a non-blank message is never rejected and is appended for the form's recipient |
| `TeamPage.FilterMembers` | src/app/team/page.tsx:206 | a filter keeps exactly the elements that pass |
| `TeamPage.FilterAppend` | src/app/team/page.tsx:206 | filtering a concatenation filters each part, in order |
| `TeamPage.FilterCount` | src/app/team/page.tsx:267 | a filter's length counts the positions whose element passes |
| `TeamPage.FilterStronger` | src/app/team/page.tsx:272 | a stronger test keeps no more elements |
| `TeamPage.TeamForm.constructor` | src/app/team/page.tsx:107-126 | the initial page state |
| `TeamPage.TeamForm.Refresh` | src/app/team/page.tsx:130-140 | each list takes what the route returned, or its empty default |
| `TeamPage.TeamForm.SelectAll` | src/app/team/page.tsx:254 | clears the selection and shows the overview |
| `TeamPage.TeamForm.SelectAgent` | src/app/team/page.tsx:276 | selects the agent and shows its profile |
| `TeamPage.TeamForm.Broadcast` | src/app/team/page.tsx:232 | opens the message form addressed to the team |
| `TeamPage.TeamForm.SubmitTask` | src/app/team/page.tsx:152-169 | nothing without a non-blank title and a selected agent; otherwise the trimmed body is sent, and after the reply the title, notes and modal are reset and `submitting` cleared |
| `TeamPage.TeamForm.SubmitEssence` | src/app/team/page.tsx:171-186 | nothing without non-blank text and a selected agent; otherwise the trimmed text is sent and the form reset after the reply |
| `TeamPage.TeamForm.SubmitMessage` | src/app/team/page.tsx:188-203 | nothing for blank text; otherwise the trimmed text is sent to the chosen recipient and the form reset after the reply |
| `AuthGate.ScreenByAuthed` | src/app/auth-gate.tsx:48-77 | loading exactly while `authed` is null, the page exactly when true, the form otherwise |
| `AuthGate.CheckLeavesLoading` | src/app/auth-gate.tsx:12-17 | once the check answers the gate never shows loading, and shows the page exactly on `true` |
| `AuthGate.PasswordOutcomes` | src/app/auth-gate.tsx:26-45 | success opens the gate, rejection sets "Invalid passcode" and empties the field, an exception sets "Auth failed"; each leaves the rest unchanged |
| `AuthGate.PasswordOpensGate` | src/app/auth-gate.tsx:35-36 | a submission shows the page exactly on a true answer or when it was already shown |
| `AuthGate.CheckFollowsStore` | src/app/auth-gate.tsx:12-17 | on mount the page shows exactly when the store holds a live session for the cookie |
| `AuthGate.PasswordFollowsRoute` | src/app/auth-gate.tsx:26-45 | a passcode opens the gate exactly when it is the configured one |
| `AuthGate.DefaultPasscode` | src/app/api/auth/route.ts:5 | without a configured password, "vkey" opens the gate and nothing else does |
| `AuthGate.Gate.constructor` | src/app/auth-gate.tsx:6-8 | the gate starts loading with empty error and passcode |
| `AuthGate.Gate.OnCheck` | src/app/auth-gate.tsx:12-17 | `authed` becomes the check's answer, or false when it threw |
| `AuthGate.Gate.Type` | src/app/auth-gate.tsx:122 | the passcode field follows the input |
| `AuthGate.Gate.Submit` | src/app/auth-gate.tsx:123 | nothing for an empty passcode; otherwise the passcode is sent and the state follows the password step |
| `Dashboard.OnFrameShape` | src/app/page.tsx:69-76 | a non-JSON frame changes nothing; an event ends the feed after the newest 499 old events, at most 500 in all |
| `Dashboard.OnFramesBounded` | src/app/page.tsx:72 | a feed within the cap stays within it across any run of frames |
| `Dashboard.OnPollMeans` | src/app/page.tsx:107-118 | a poll replaces the feed exactly when it brings a non-empty list |
| `Dashboard.ModelName` | src/app/page.tsx:291-294 | the shown name holds no "/" and is the text after the last "/" |
| `Dashboard.ModelNameNoSlash` | src/app/page.tsx:291 | a name without "/" is shown whole |
| `Dashboard.OllamaClass` | src/app/page.tsx:268-272 | the Ollama word is green exactly when Ollama is "up", red otherwise |
| `Dashboard.MemoryClass` | src/app/page.tsx:280-284 | the memory word is green exactly when memory is "available", amber otherwise |
| `Dashboard.RenderKinds` | src/app/page.tsx:138-244 | the five known types get their own card; any other gets the fallback line with the type and at most 100 characters of content |
| `Dashboard.RenderAgentColors` | src/app/page.tsx:140-143 | no agent means "System" with gray classes; an agent outside the five gets gray, a named one its own |
| `Dashboard.Home.constructor` | src/app/page.tsx:46-52 | the initial page state |
| `Dashboard.Home.OnMessage` | src/app/page.tsx:69-76 | the feed follows the frame step |
| `Dashboard.Home.OnConnection` | src/app/page.tsx:63-67 | the connection flag follows open and close |
| `Dashboard.Home.PollTick` | src/app/page.tsx:107-118 | no change while connected; otherwise the poll step |
| `Dashboard.Home.OnHealth` | src/app/page.tsx:86-96 | the health line shows the last answer, or nothing after a failure |
| `Dashboard.Home.SendMessage` | src/app/page.tsx:120-136 | nothing for a blank message or while sending; otherwise the trimmed message is posted, the box cleared only on an ok answer, and `sending` ends false |
| `LiveFeeds.Backend` | src/app/live/page.tsx:26 | the configured backend when set and non-empty, otherwise the default ngrok host |
| `LiveFeeds.DefaultEndpoints` | src/app/live/page.tsx:26-60 | with the default backend, JL1 polls the host, JL2 and JLa its fleet proxies, and JLa's socket is the same host with "https" replaced by "wss" |
| `LiveFeeds.PolledMachines` | src/app/live/page.tsx:28-72 | the cards are JL1, JL2, JLa, JLb, and only JL1 and JL2 are polled |
| `LiveFeeds.WsEvent` | src/app/live/page.tsx:131-138 | a socket event is JLa's and keeps its engine; agent, type, content and time are the message's own when truthy, and otherwise "System", "event", the first 200 characters of the serialised message, and now |
| `LiveFeeds.PolledFeedEvent` | src/app/live/page.tsx:178-183 | a polled entry is stamped with the machine's id and keeps its engine; agent, type, content and time are its own when truthy, and otherwise "System", "event", "" and now |
| `LiveFeeds.PolledFeed` | src/app/live/page.tsx:177-184 | one feed event per polled entry, in order, each stamped with the machine's id and defaulted as above |
| `LiveFeeds.PollFeedCases` | src/app/live/page.tsx:172-201 | an events list replaces the feed wholesale; another answer appends a heartbeat with the status or "online", keeping at most 100; no ok answer leaves it alone |
| `LiveFeeds.PollConnectedCases` | src/app/live/page.tsx:163-173 | the fallback fetch matters only when the first is not ok; connected exactly when the final response is ok and readable |
| `LiveFeeds.LastEventOfIsNewest` | src/app/live/page.tsx:321 | the newest event whose agent matches case-insensitively, and nothing exactly when none matches |
| `LiveFeeds.ActiveSummary` | src/app/live/page.tsx:336-338 | an active agent's summary is at most 100 characters: the content whole, or its first 97 and "..." |
| `LiveFeeds.AgoHours` | src/app/live/page.tsx:340-341 | an agent last seen an hour or more ago is reported in whole hours |
| `LiveFeeds.SleepingAgent` | src/app/live/page.tsx:323-331 | sleeping is exactly inactive on an offline machine, shown as "Down" and "Offline — machine unreachable" |
| `LiveFeeds.OnlineCountIsTrueFlags` | src/app/live/page.tsx:222 | the online count is the number of machines whose flag is true |
| `LiveFeeds.OnlineCountBound` | src/app/live/page.tsx:222 | the online count never exceeds the number of machines |
| `LiveFeeds.TotalEventsUpdate` | src/app/live/page.tsx:221 | changing one feed changes the total by the difference of that feed's length |
| `LiveFeeds.TotalEventsOther` | src/app/live/page.tsx:221 | changing a feed outside the counted machines leaves the total alone |
| `LiveFeeds.MachineStatus` | src/app/live/page.tsx:308 | a card says "Live" exactly when connected |
| `LiveFeeds.ShowsWakeButton` | src/app/live/page.tsx:391 | the Wake / Diagnose button shows exactly on the cards whose status reads "Offline" |
| `LiveFeeds.LiveState.constructor` | src/app/live/page.tsx:85-94 | empty feeds and all machines disconnected |
| `LiveFeeds.LiveState.Online` | src/app/live/page.tsx:253 | the header count is at most the number of machines |
| `LiveFeeds.LiveState.OnWsStatus` | src/app/live/page.tsx:122-126 | JLa's flag follows the socket; nothing else changes |
| `LiveFeeds.LiveState.OnWsMessage` | src/app/live/page.tsx:128-144 | a parsed message is appended to JLa's feed keeping the newest 100; an unparsable one is dropped |
| `LiveFeeds.LiveState.PollMachine` | src/app/live/page.tsx:155-205 | no endpoint leaves the machine alone; otherwise its flag and feed follow the response settled on |
| `LiveFeeds.LiveState.WakeMachine` | src/app/live/page.tsx:97-110 | the diagnosis is cleared then set from an ok report, the panel opens, the machine is marked connected only when all services are up, and `waking` ends false |
| `LiveFeeds.LiveState.StartWake` | src/app/live/page.tsx:98-100 | waking set, diagnosis cleared, panel opened |
| `LiveFeeds.LiveState.FinishWake` | src/app/live/page.tsx:103-109 | the report kept on an ok answer, connected on `allUp`, waking cleared |
| `Apps.ForMachineMembers` | src/app/apps/page.tsx:52-55 | a group holds exactly the services of its machine |
| `Apps.ForMachineAppend` | src/app/apps/page.tsx:52-55 | grouping keeps the report's relative order within a group |
| `Apps.ForMachineSnoc` | src/app/apps/page.tsx:53 | pushing one service extends its own machine's group only |
| `Apps.ForMachineNone` | src/app/apps/page.tsx:53 | a machine no service runs on has no entries |
| `Apps.GroupByMachine` | src/app/apps/page.tsx:52-55 | the render throws exactly when some service's machine is an inherited `Object.prototype` name; otherwise there is a non-empty group exactly for each machine that runs a service, holding its services in report order |
| `Apps.Grouped` | src/app/apps/page.tsx:52-55 | no report means no groups; a report is grouped as above, throwing on an inherited machine name |
| `Apps.ColorFollowsLabel` | src/app/apps/page.tsx:183-188 | each status word has exactly one colour |
| `Apps.SlowMeans` | src/app/apps/page.tsx:161-162 | "Slow" exactly for a non-empty group with nothing down and something slow |
| `Apps.DegradedMeans` | src/app/apps/page.tsx:162 | "Degraded" exactly when some service is down |
| `Apps.ServiceDotColor` | src/app/apps/page.tsx:205 | green, amber and red each mean exactly one status: up, slow, down |
| `Apps.SingleServiceCard` | src/app/apps/page.tsx:183-205 | a machine running one service shows that service's dot colour on its card |
| `Apps.EmptyGroupText` | src/app/apps/page.tsx:230 | JLb is awaiting deployment, every other card has no services registered |
| `Apps.HealthPctBounds` | src/app/apps/page.tsx:57 | 0 without a report; otherwise within half a point of the fraction times 100, between 0 and 100 |

## Left out

- Network, timers and the WebSocket: every `fetch`, abort timer, probe and ping is an input describing what it observed. Latency is a given number. Reconnect timers, `setInterval` polling, `useEffect` scheduling, the auto-focus and scroll effects, and a poll reply arriving after a reconnection are not modelled.
- Clock: each handler reads one `now`. The sweep and the new expiry in the auth route read `Date.now()` separately, and the model assumes they read the same value.
- Random source: the 32 random bytes of a token are a parameter, so token uniqueness is not claimed.
- Files: the team route's files are a value passed in and returned. Write failures other than an unreadable file, and races between requests, are left out.
- JSON: `JSON.parse` and `JSON.stringify` are datatypes with optional fields, and the channel codec is an injected pair of functions with a round-trip assumption. Non-object JSON values are modelled only where the code branches on them.
- Floating point: `healthPct` uses reals, and ages are whole milliseconds. The progress-bar ratios are not modelled.
- Text: lower-casing is ASCII-only, and `toLocaleTimeString` is left out.
- Text.Truncate, Text.Take and Text.Last: a Dafny `string` counts Unicode characters, while JavaScript's `length` and `slice` count UTF-16 code units. Every cut in the model is therefore measured in characters: the 200-character cut of a serialised socket message, the 100/97 active summary and 60-character "Last active" cut, the essence note's 100, the channel preview's 60, the notes' 120, and the fallback card's 100. The source measures these in code units. For text outside the Basic Multilingual Plane, such as emoji, the source cuts sooner and can split a surrogate pair, so the truncation lemmas hold in characters, not code units.
- Rendering details: JSX styling, cookie attributes, and `src/app/layout.tsx` are left out.
- Auth gate: the gate's `authenticated` answer is modelled as a boolean or absent.
- Home page: in the agent colour lookups, inherited object property names are treated as unknown agents.
- Health route: `src/app/api/health/route.ts` only proxies a remote service and is not part of this model, so the up/slow/down classification arrives as data.
- Apps page: its `refresh` callback is not modelled beyond the `Option` report.
- React state: the order in which batched `setState` updates land is not modelled. Each handler's updates are applied in program order.

## Findings

| source | as written | input that shows it | evidently intended | confidence | as-written member | corrected member |
|---|---|---|---|---|---|---|
| src/app/api/wake/route.ts:72 | the guard indexes the fleet object, so an inherited property name passes and the handler then throws reading `.services`, answering 500 | `GET /api/wake?machine=constructor` (lemma `Wake.PrototypeKeyReachesWake`) | 400 "Unknown machine" for any id that is not a configured machine | not executed | `Wake.WakeStatusAsWritten` | `Wake.WakeRejectsExactlyUnknown` |
| src/app/api/team/route.ts:73 | `AGENT_FILES[agent]` on a plain object accepts inherited names, and the update then fails inside its `try`, answering 500 | `update_essence` with agent "toString" (lemma `TeamApi.InheritedAgentName`) | 400 "Invalid agent or content" for any agent outside the five | not executed | `TeamApi.TeamPostAsWritten` | `TeamApi.UpdateEssenceValidation` |
