# Model of agent-dash

agent-dash watches coding-agent sessions. A daemon owns the table of sessions, the
permission requests hooks are waiting on, and a list of subscribers that mirror its
state. A relay passes encrypted messages between a daemon and phones. An installer
merges hooks into a settings document. Transcripts are read incrementally, a pairing
link is printed for the phone, and a wrapper reads prompt suggestions off the terminal
and batches terminal output.

This project models those parts and proves what they keep, over every run, every
interleaving and every input. Code that updates state in place is a class whose methods
are proved equal to functions on values; the properties are lemmas about those functions.

| file | part |
|---|---|
| `Wrappers` | options, iteration orders of hash tables |
| `SessionState`, `DashView` | the session table and the list clients are shown |
| `Daemon` | the daemon's loop, one method per arm, over an arbitrary environment |
| `Lifecycle`, `Effects` | which sessions may be in "needs input", and what each message does to the table, field by field |
| `Extension`, `Replica` | the client's fold of the event stream, and its agreement with the daemon |
| `Broadcasts` | the events and answers each message sends, in order, and where every answer comes from |
| `Replies`, `Prompts` | reply channels of permission hooks, and the channels prompts go to |
| `RelayChannel`, `RelayServer` | the relay's channel manager, its handlers, and both as one system |
| `RelayIdentity`, `RelayHistory`, `RelayPruning`, `RelayStranded` | membership, replay and delivery, removal of empty channels, handlers that die |
| `RelayAdmission`, `RelayEviction` | who is let in and what each frame leads to, when a channel ends |
| `Consolidation`, `Setup` | merging hooks into a settings document |
| `Utf8`, `Transcript`, `Watch` | decoding, reading transcripts in pieces, watching them, cutting text |
| `Pairing` | the pairing link and how the phone reads it |
| `Terminal` | suggestion detection and output batching |

The environment is explicit. `Env` and `World` decide, send by send, whether a queue has
room, and in which order a hash table is visited; clocks, transcript paths that were
looked up on disk and file contents are arguments. Nothing is assumed about them except
that an iteration order lists every key exactly once; `Replica.RoomyWorld` is such a world.

## What turned out false

- "A session that needs input has a pending request." `Lifecycle.JustifiedExactly` says
  exactly which message breaks it: a hook that moves a session to another wrapper, the
  unregistering of a wrapper that is itself a subagent, or a request id used again for
  another session, each taking away the last request shown on a waiting session. Each of
  the three has a run from start-up: `Lifecycle.MovedSessionStrandsWrapper`,
  `Lifecycle.UnregisteredSubagentStrandsWrapper` and `Lifecycle.ReusedIdStrandsSession`.
- "Clients know exactly the pending requests." Unregistering a wrapper discards requests
  without telling anyone; `Replica.ExactUnlessDiscarded` says that this is the only way
  and exactly when it happens, `Replica.OrphansExactly` which waiters are left over, and
  `Replica.DiscardRun` is a run that misleads a subscriber which missed nothing.
- "Incremental reading equals whole reading." `Transcript.IncrementalExactly`: for every
  growing file it does if and only if each successful read stops harmlessly, that is at a
  line end, in a blank line, or where only the line's terminator is missing. Reads that
  fail, as those that end inside a character, are harmless. `Transcript.MidLineReadSplitsLine`
  is the other case.
- "A tail is a suffix of the whole." Not when the window cuts the only line it sees:
  `Transcript.TailIsSuffixExactly`, with `Transcript.LongLineIsCut` for the files that do.
- "A watcher sees each message once." Over an undisturbed run it does if and only if the
  reads stop harmlessly (`Watch.WatcherGetsExactly`). A session that leaves the table while
  watched is read from the start at every change: `Watch.RepeatsExactly` says that this
  repeats messages exactly when the session is absent and there are messages, and
  `Watch.GoneSessionRun` is such a run. A file that grows between two formats' reads is lost
  to the earlier one; `Watch.EarlierFormatMissesGrowth` says exactly when lines are missing
  for good, and `Watch.GrowthIsLostRun` is such a run.
- "Prompt channels go with their wrapper." An alias whose session ended first, or is not
  linked to the wrapper, stays: `Prompts.AliasesLeft` says exactly which, and
  `Prompts.StaleAliasRun` is a run after which a prompt for an ended session goes to the
  channel of a wrapper that is gone.
- "A connection that ends frees its key." A handler logs the first eight bytes of its
  channel id as soon as it is accepted and dies, without a farewell, if they cut a
  character. `RelayStranded.AcceptedExactly` says exactly when, and
  `RelayStranded.KeyStaysTaken` that the key is then taken, and the channel kept, for good.
- "Without a failed send all terminal output arrives." Not when the session ends first:
  `Terminal.SendBatches` says exactly when everything arrives.
- "A client that keeps up has every message." Not if its last number comes from an
  earlier lifetime of the channel: `RelayHistory.WholeLifetimeExactly`.
- "The phone reads back the pairing link." Not with a `#` in a value:
  `Pairing.RoundTripExactly`.
- Where code and comments disagree the model follows the code: `truncate_output` and
  `truncate_detail` count bytes although their comments say characters; the list of
  sessions is ordered by the status text, not by priority; the `PeerChange` sent on
  joining has an empty channel id; a suggestion may follow either prompt character in
  any of the first four columns; the `> 16384` stop of a batch is only looked at after a
  second chunk.

## A property that needs its surroundings

Removing a channel that a disconnect leaves empty cannot be noticed by connections
(`RelayPruning.PruningIsInvisible`), because handlers send commands for a channel only while
they are in it. For the manager alone `RelayPruning.PruningExactly` gives the exact condition:
over any commands and evictions, no message is stored in a channel without members that
was dropped.

## Model

| member | source | states |
|---|---|---|
| SessionState.DaemonState.EnsureSession | crates/agent-dash/src/state.rs:62-83 | a default session is created only if the id is new |
| SessionState.DaemonState.SetStatus | crates/agent-dash/src/state.rs:87-94 | only a present session changes, and its time stamp only with its status |
| SessionState.DaemonState.ApplyHookEvent | crates/agent-dash/src/state.rs:97-144 | the whole new table for each of the five hook events |
| SessionState.DaemonState.AddPermissionRequest | crates/agent-dash/src/state.rs:147-175 | the request is filed and its session and that session's wrapper need input |
| SessionState.DaemonState.ResolvePermission | crates/agent-dash/src/state.rs:179-211 | the request goes; the session and its wrapper settle only when nothing is pending under the session |
| SessionState.DaemonState.RemoveWrapper | crates/agent-dash/src/state.rs:215-231 | the wrapper, its subagents and their requests go, whatever the order of removal |
| SessionState.DaemonState.PopulatePath | crates/agent-dash/src/daemon.rs:148-167 | a path that was found is recorded once, also on the wrapper |
| SessionState.DaemonState.Register | crates/agent-dash/src/daemon.rs:402-437 | a registered wrapper becomes a main session with the given details |
| DashView.BuildDashSessions | crates/agent-dash/src/state.rs:244-323 | the loops build a list that is strictly ordered by (status text, id) and shows every selected session once, with its own data and a reason that really supports it |
| DashView.CountSubagents | crates/agent-dash/src/state.rs:246-251 | the counting loop finds, for every id, the number of sessions linked to it, in any visiting order |
| DashView.DashIsView | crates/agent-dash/src/state.rs:253-322 | any visiting order of the two tables gives such a list |
| DashView.SortOrders | crates/agent-dash/src/state.rs:318-320 | sorting permutes and orders strictly when ids differ |
| DashView.ViewsAgree | crates/agent-dash/src/state.rs:244-323 | two views of one state coincide but for the input reason: ids, order, status and counts do not depend on map order |
| DashView.ViewPlaces | crates/agent-dash/src/state.rs:317-320 | the place of a session in a view is the number of selected sessions that precede it by (status text, id) |
| DashView.ViewInFull | crates/agent-dash/src/state.rs:253-315 | a view lists exactly the main sessions, or all, each with its status by name, its tool, its own details, the number of sessions linked to it, and the question or some request shown on it |
| DashView.CountsAddUp | crates/agent-dash/src/state.rs:245-251 | with subagents included the counts sum to the number of sessions whose parent is a present session |
| Daemon.FindKey | crates/agent-dash/src/daemon.rs:802-820 | exact match first, else the only key with that prefix, else nothing |
| Daemon.SoleMatch | crates/agent-dash/src/daemon.rs:807-819 | exactly one match is found if and only if there is a unique key with the prefix, and it is that key |
| Daemon.Daemon.Retain | crates/agent-dash/src/daemon.rs:787-787 | exactly the subscribers whose queue took the event stay, in order |
| Daemon.Daemon.Broadcast | crates/agent-dash/src/daemon.rs:780-788 | everyone listed is offered the event once and whoever missed it leaves the list |
| Daemon.Daemon.Resolve | crates/agent-dash/src/daemon.rs:119-132 | the waiter is answered and removed and the resolution is broadcast, if the request was pending |
| Daemon.Daemon.LinkHook | crates/agent-dash/src/daemon.rs:72-98 | prompt-channel alias and parent link made by a wrapped session's hook |
| Daemon.Daemon.Hook | crates/agent-dash/src/daemon.rs:69-171 | the hook arm: link, resolve all requests of the session in any order, apply, broadcast |
| Daemon.Daemon.Subscribe | crates/agent-dash/src/daemon.rs:176-203 | a newcomer is offered the state and every pending request and is listed even if some did not fit |
| Daemon.Daemon.PermissionResponse | crates/agent-dash/src/daemon.rs:217-241 | answers and broadcasts only if the request is pending |
| Daemon.Daemon.PermissionRequest | crates/agent-dash/src/daemon.rs:242-277 | files the request, replaces its waiter, announces it under the wrapper's id |
| Daemon.Daemon.RegisterWrapper | crates/agent-dash/src/daemon.rs:393-446 | registers session and channel, and the channel of the real session |
| Daemon.Daemon.UnregisterWrapper | crates/agent-dash/src/daemon.rs:447-464 | household and channels go, waiters stay, no resolution is sent |
| Daemon.Daemon.UpdateSuggestion | crates/agent-dash/src/daemon.rs:465-476 | a suggestion is stored and broadcast only if it differs |
| Daemon.Daemon.UpdateThinking | crates/agent-dash/src/daemon.rs:477-488 | a thinking text is stored and broadcast only if it differs |
| Daemon.Daemon.SendPrompt | crates/agent-dash/src/daemon.rs:489-565 | a prompt is sent exactly if the target is no subagent, has a unique channel and the channel takes it; then the named session is working |
| Daemon.Daemon.Receive | crates/agent-dash/src/daemon.rs:66-565 | every message changes the daemon as one step of the modelled run does |
| Effects.HookPresence | crates/agent-dash/src/daemon.rs:69-145 | who is present after a hook, and that exactly the requests of its session are gone |
| Effects.HookStatus | crates/agent-dash/src/state.rs:97-144 | the status of every session after a hook, and that its time changes exactly with it |
| Effects.HookDetails | crates/agent-dash/src/daemon.rs:69-167 | link, tool, directory and transcript path of every session after a hook, and that nothing else changes |
| Effects.NewSessionInFull | crates/agent-dash/src/state.rs:65-82 | a new session is idle, unlinked, no main session, and has no details |
| Effects.RequestEffect | crates/agent-dash/src/state.rs:147-175 | a request makes exactly its session and that session's wrapper wait, at that time |
| Effects.ResponseEffect | crates/agent-dash/src/state.rs:179-211 | an answer ends exactly the wait of the session and its wrapper, if it was the session's last request |
| Effects.RegisterEffect | crates/agent-dash/src/daemon.rs:402-437 | a wrapper that registers becomes a main session with what it says of itself and a found path; no other session changes |
| Effects.UnregisterEffect | crates/agent-dash/src/state.rs:215-231 | exactly the wrapper, the sessions linked to it and their requests go |
| Effects.ReportEffect | crates/agent-dash/src/daemon.rs:465-488 | a suggestion or thinking text is stored on exactly its session |
| Effects.PromptEffect | crates/agent-dash/src/daemon.rs:546-551 | a prompt that went out makes exactly the session it names work |
| Broadcasts.ResponseTells | crates/agent-dash/src/daemon.rs:217-241 | the waiting hook gets the decision and suggestion that were given; subscribers hear the resolution and then the state; an answer to nothing pending does nothing |
| Broadcasts.RequestTells | crates/agent-dash/src/daemon.rs:258-276 | the announcement is under the wrapper the session is linked to, or else the session, with what was asked; then the state |
| Broadcasts.HookTells | crates/agent-dash/src/daemon.rs:103-171 | every request pending under the session is allowed and announced as resolved at the terminal, in some order; then the state |
| Broadcasts.OthersTell | crates/agent-dash/src/daemon.rs:393-565 | what the other messages tell, exactly when, and that they answer no hook |
| Broadcasts.RepliesGrounded | crates/agent-dash/src/daemon.rs:111-127 | in every run each answer went to the channel then waiting for that request, and carries the decision of a client's answer to it, or "allow" from a hook of its session |
| Lifecycle.ResolveAllDismisses | crates/agent-dash/src/daemon.rs:103-134 | resolving all requests of a session one by one, in any order, equals dismissing them at once |
| Lifecycle.StepState | crates/agent-dash/src/daemon.rs:66-565 | the session table evolves by a function of the table, the message and whether a prompt went out, whatever subscribers and queues do otherwise |
| Lifecycle.StepKeepsWellFormed | crates/agent-dash/src/state.rs:62-231 | every message keeps keys equal to ids and no session its own parent |
| Lifecycle.RunWellFormed | crates/agent-dash/src/state.rs:62-231 | the same over every run |
| Lifecycle.JustifiedExactly | crates/agent-dash/src/state.rs:97-231 | a message keeps "needs input implies a pending request shown there" if and only if it takes no waiting session's last request away, over all messages |
| Lifecycle.CarefulNeverUndercuts | crates/agent-dash/src/daemon.rs:72-98 | while every waiting session is shown a request, no reuse of an id, no re-linking and no unregistering of a subagent rule that out |
| Lifecycle.CarefulRunJustified | crates/agent-dash/src/state.rs:97-231 | in every run under those three conditions, each session that needs input has a request filed under it or under a session linked to it |
| Lifecycle.ReusedIdStrandsSession | crates/agent-dash/src/state.rs:155-175 | a four-message run after which a session needs input with nothing pending |
| Lifecycle.MovedSessionStrandsWrapper | crates/agent-dash/src/daemon.rs:72-98 | for all ids, a four-message run in which a hook moves a waiting session and its first wrapper needs input with nothing pending |
| Lifecycle.UnregisteredSubagentStrandsWrapper | crates/agent-dash/src/state.rs:215-231 | for all ids, a four-message run in which a waiting subagent is unregistered and its wrapper needs input with nothing pending |
| Extension.FoldConcat | extension/extension.js:248-265 | folding a stream in two parts is folding it whole |
| Extension.Panel.HandleEvent | extension/extension.js:248-265 | one event's effect on the client's sessions and pending requests |
| Replica.StepFollows | crates/agent-dash/src/daemon.rs:66-565 | a client that agrees with the daemon still agrees after folding what the message broadcast, even when a hook moves the session |
| Replica.GreetingAgrees | crates/agent-dash/src/daemon.rs:176-203 | a complete greeting brings a new client into agreement |
| Replica.StepKeepsSound | crates/agent-dash/src/daemon.rs:66-565 | every message keeps streams gapless and complete clients in agreement |
| Replica.ReplicaAgreement | crates/agent-dash/src/daemon.rs:103-134 | in every run a listed subscriber has its greeting and then every broadcast since; if the greeting fitted, its fold knows every pending request as announced now, no request without a waiter, and lists the sessions faithfully |
| Replica.OrphansExactly | crates/agent-dash/src/state.rs:226-230 | waiters without a pending request arise only by unregistering a wrapper, and go only by reuse of their id |
| Replica.ExactUnlessDiscarded | crates/agent-dash/src/daemon.rs:447-464 | an exact client stays exact if and only if the message does not unregister a wrapper with requests pending in its household |
| Replica.NoOrphans | crates/agent-dash/src/daemon.rs:217-257 | if no unregistering discards a request, waiters and pending requests have the same ids throughout |
| Replica.ReplicaExact | extension/extension.js:248-265 | then a complete client's pending requests are exactly the daemon's |
| Replica.DiscardRun | crates/agent-dash/src/daemon.rs:447-464 | for all ids, a five-message run after which a subscriber that missed nothing shows a request that is no longer pending, while its hook still waits |
| Replies.StepConserves | crates/agent-dash/src/daemon.rs:111-133 | every message keeps the accounting of reply channels |
| Replies.ReplyConservation | crates/agent-dash/src/daemon.rs:217-257 | in every run each reply channel is held under its request id, answered exactly once, or superseded by a later request with that id; a pending request's asker is unanswered |
| Prompts.AliasesLeft | crates/agent-dash/src/daemon.rs:447-461 | after a wrapper is unregistered exactly the ids that are neither the wrapper nor linked to it still lead to a channel, so none does if and only if there are none |
| Prompts.StaleAliasRun | crates/agent-dash/src/daemon.rs:452-457 | for all ids, a four-message run after which a prompt for an ended session goes to the channel of the unregistered wrapper |
| Prompts.HookChannels | crates/agent-dash/src/daemon.rs:82-86 | a wrapped session's hook gives it the wrapper's channel exactly if it has none |
| Prompts.ChannelsOtherwise | crates/agent-dash/src/daemon.rs:416-428 | registering sets the channels of the wrapper and of the real session; other messages change none |
| Prompts.PromptExactly | crates/agent-dash/src/daemon.rs:521-563 | a prompt goes out exactly if what its id names is no linked subagent and the channel its id names takes it |
| RelayChannel.ChannelManager.HandleCmd | crates/agent-dash-relay/src/channel.rs:97-236 | new table and outputs of each command, in order |
| RelayChannel.ChannelManager.EvictStale | crates/agent-dash-relay/src/channel.rs:238-246 | exactly the empty channels idle longer than the limit go |
| RelayChannel.RetainOthers | crates/agent-dash-relay/src/channel.rs:214-214 | the loop keeps the peers under other keys, in order |
| RelayChannel.ForwardToOthers | crates/agent-dash-relay/src/channel.rs:183-188 | one send to each peer under another key, in order |
| RelayChannel.CollectSince | crates/agent-dash-relay/src/channel.rs:198-203 | the loop collects the newer messages in order |
| RelayServer.Handler.Receive | crates/agent-dash-relay/src/server.rs:29-196 | what a handler does with each frame in each phase |
| RelayServer.Handler.TakeAuthReply | crates/agent-dash-relay/src/server.rs:109-126 | an accepted handler becomes active if it can log its channel id and dies otherwise, a rejected one ends; neither sends a farewell |
| RelayIdentity.StepIdentified | crates/agent-dash-relay/src/server.rs:92-196 | every step of any handler or of the manager keeps membership and protocol order |
| RelayIdentity.PeersAreMembers | crates/agent-dash-relay/src/channel.rs:112-123 | under every interleaving, peer entries are in one-to-one correspondence with accepted connections whose disconnect is not processed, under distinct keys |
| RelayIdentity.DisconnectRemovesOwnEntry | crates/agent-dash-relay/src/channel.rs:207-215 | a processed disconnect removes its sender's own entry and no other |
| RelayIdentity.OthersRemovesOne | crates/agent-dash-relay/src/channel.rs:214-214 | with distinct keys, retaining the others removes exactly one place |
| RelayHistory.BuffersAreTails | crates/agent-dash-relay/src/channel.rs:146-189 | in every reachable state a buffer holds exactly the last `max_buffer` of all encrypted messages forwarded in the channel's lifetime, numbered 1, 2, ... up to `next_seq - 1` |
| RelayHistory.StepKeepsLog | crates/agent-dash-relay/src/channel.rs:230-246 | while a member stays, its channel is not dropped and its numbering never goes back |
| RelayHistory.LogOnlyGrows | crates/agent-dash-relay/src/channel.rs:230-246 | over any stretch of a run with a member present at both ends, the log is only extended |
| RelayHistory.RoundExactly | crates/agent-dash-relay/src/channel.rs:190-206 | a sync answers with every message that is newer and still buffered, no more and no less |
| RelayHistory.CatchUpExactlyOnce | crates/agent-dash-relay/src/channel.rs:190-206 | successive syncs from the highest number seen, whatever the first, give strictly increasing numbers, and everything above the first if and only if at most `max_buffer` messages come between two syncs |
| RelayHistory.WholeLifetimeExactly | crates/agent-dash-relay/src/channel.rs:190-246 | such a client has every message of the channel's present lifetime if and only if there are none, or it starts from nothing and keeps up |
| RelayHistory.SyncsOfAMember | crates/agent-dash-relay/src/channel.rs:190-206 | a member's syncs in any run are such rounds over a growing log |
| RelayHistory.MemberCatchesUp | crates/agent-dash-relay/src/channel.rs:146-206 | the answers the manager would give a member at any chosen moments of any run add up to exactly-once catch-up |
| RelayHistory.ToldIsGathered | crates/agent-dash-relay/src/server.rs:160-181 | in every run, the sync answers recorded for a connection that asks its own channel from the highest number it was told are what such a client gathers |
| RelayHistory.ToldExactlyOnce | crates/agent-dash-relay/src/channel.rs:146-206 | so what such a connection was told has strictly increasing numbers, is complete above its first number at its last sync if and only if it keeps up, and is all there is if and only if it also started from nothing |
| RelayHistory.StepServed | crates/agent-dash-relay/src/channel.rs:183-188 | every step keeps what members have been offered in line with the log |
| RelayHistory.MembersAreServed | crates/agent-dash-relay/src/channel.rs:146-189 | in every reachable state each member was offered exactly what the others sent since it joined, in order, never its own |
| RelayAdmission.AuthFrameExactly | crates/agent-dash-relay/src/server.rs:44-107 | the first frame asks for its channel exactly if it carries the required token, or none is required; otherwise the connection ends and nothing is asked |
| RelayAdmission.ClaimsArePresented | crates/agent-dash-relay/src/server.rs:51-69 | in every run whoever has asked for a channel presented the required token for that channel and key |
| RelayAdmission.PeersPresented | crates/agent-dash-relay/src/server.rs:51-69 | and so did the connection behind every peer entry |
| RelayAdmission.PeersCountMembers | crates/agent-dash-relay/src/channel.rs:118-122 | a channel has exactly as many peer entries as members |
| RelayAdmission.JoinExactly | crates/agent-dash-relay/src/channel.rs:109-144 | a join is refused exactly if a member holds the key; otherwise the newcomer, and in a notice every member, is told how many members there are then, as 32 bits |
| RelayAdmission.LeaveExactly | crates/agent-dash-relay/src/channel.rs:214-228 | those who stay, each once and in order, are told how many they are under the channel's id |
| RelayAdmission.FrameExactly | crates/agent-dash-relay/src/server.rs:137-196 | what an active handler asks for each frame, and that it ignores the rest |
| RelayAdmission.SyncEnds | crates/agent-dash-relay/src/server.rs:172-180 | after the answer the handler takes frames again |
| RelayAdmission.NewcomerJoins | crates/agent-dash-relay/src/channel.rs:109-123 | a processed join adds exactly its sender to the members, unless the key is held |
| RelayAdmission.FarewellLeaves | crates/agent-dash-relay/src/channel.rs:207-215 | a processed farewell ends exactly its sender's membership |
| RelayAdmission.MessageIsStored | crates/agent-dash-relay/src/channel.rs:160-181 | a processed message is stored under the next number, with its text, nonce and time |
| RelayAdmission.MessageIsOffered | crates/agent-dash-relay/src/channel.rs:183-188 | and offered to exactly the other members |
| RelayEviction.ActivityIsLastTouch | crates/agent-dash-relay/src/channel.rs:109-154 | in every run a channel's time is that of the last join, refused or not, or message |
| RelayEviction.SweepExactly | crates/agent-dash-relay/src/channel.rs:238-246 | in every run a sweep drops exactly the channels without members whose last join or message lies more than the limit back |
| RelayEviction.FarewellDropsExactly | crates/agent-dash-relay/src/channel.rs:230-233 | a farewell drops the channel exactly if nobody stays and nothing is buffered |
| RelayStranded.AcceptedExactly | crates/agent-dash-relay/src/server.rs:109-126 | an accepted handler goes on if and only if the first eight bytes of its channel id end at a character boundary, and is stranded otherwise: a member whose farewell never comes |
| RelayStranded.StrandedForever | crates/agent-dash-relay/src/server.rs:126-196 | a stranded connection stays so over every continuation of the run |
| RelayStranded.KeyStaysTaken | crates/agent-dash-relay/src/channel.rs:112-116 | over every continuation its channel is kept and everyone who asks for its key is rejected |
| RelayStranded.UnloggableId | crates/agent-dash-relay/src/server.rs:126-126 | such a channel id |
| RelayPruning.PruningExactly | crates/agent-dash-relay/src/channel.rs:207-246 | on any sequence of commands and evictions, each at its own time, the managers with and without removal put out the same and answer syncs alike throughout, if and only if no message is stored in a memberless channel the first one dropped |
| RelayPruning.RunsAlike | crates/agent-dash-relay/src/channel.rs:230-233 | the two relays stay related over every run |
| RelayPruning.PruningIsInvisible | crates/agent-dash-relay/src/channel.rs:230-233 | every connection is told, answered and offered the same, for every buffer size including 0 |
| RelayPruning.StrangersSeePruning | crates/agent-dash-relay/src/channel.rs:146-206 | commands no handler would send tell the two apart |
| Consolidation.FindOwn | crates/agent-dash/src/setup.rs:160-166 | the loop lists the positions of own entries in order |
| Consolidation.Consolidate | crates/agent-dash/src/setup.rs:183-192 | replacing the first and removing the rest by index from the back gives the consolidated list |
| Consolidation.ConsolidatedMeaning | crates/agent-dash/src/setup.rs:147-194 | exactly one own entry remains, it is the target, at the first old place or at the end, and all others survive in order |
| Consolidation.ConsolidatedOnlyOwn | crates/agent-dash/src/setup.rs:183-192 | no other position of the result is one's own |
| Consolidation.ConsolidatedWhen | crates/agent-dash/src/setup.rs:168-193 | the list is left alone if and only if it already held the target and no other own entry |
| Consolidation.ConsolidatedTwice | crates/agent-dash/src/setup.rs:147-194 | consolidating twice is consolidating once |
| Setup.OwnEntry | crates/agent-dash/src/setup.rs:197-223 | an entry the installer writes is recognised as its own |
| Setup.MergeSingleHook | crates/agent-dash/src/setup.rs:147-194 | one event is consolidated, and the flag is exactly whether its value changed |
| Setup.MergeEvents | crates/agent-dash/src/setup.rs:116-120 | all events are merged, and the flag is exactly whether any changed |
| Setup.CleanAndMerge | crates/agent-dash/src/setup.rs:109-122 | cleaning and merging together, with an exact flag |
| Setup.Settings.MergeHooks | crates/agent-dash/src/setup.rs:93-123 | the document becomes its merge, and the answer is exactly whether it changed, on every JSON value |
| Setup.MergeIdempotent | crates/agent-dash/src/setup.rs:93-194 | merging twice is merging once, on every JSON value |
| Setup.MergeTouchesOnlyItsOwn | crates/agent-dash/src/setup.rs:93-140 | no other root key changes and no hook event but the installer's own and the invalid one |
| Setup.Installed | crates/agent-dash/src/setup.rs:93-199 | after merging any document, each of the six events that holds a list or nothing has exactly one own entry, in the nested format with the event's command and nothing else, at the place of the first old one or at the end, and every other entry in its old order |
| Setup.CommandsByName | crates/agent-dash/src/setup.rs:6-13 | the command of each of the six events |
| Setup.StaleEntryReplaced | crates/agent-dash/src/setup.rs:174-182 | a lone own entry in another shape, such as the flat one, is replaced by the nested one, and that is a change |
| Setup.InvalidEventExactly | crates/agent-dash/src/setup.rs:127-140 | the invalid event goes exactly if it is a list of own entries only, and stays as it is otherwise |
| Setup.OwnCommandExactly | crates/agent-dash/src/setup.rs:226-228 | a command is one's own exactly if it starts like the present one or holds the old name anywhere |
| Setup.OwnEntryExactly | crates/agent-dash/src/setup.rs:203-223 | an object is an own entry exactly if its command, or that of a hook in its list, is |
| Setup.TableAt | crates/agent-dash/src/setup.rs:116-120 | each event of the table is merged as if alone |
| Setup.TableElsewhere | crates/agent-dash/src/setup.rs:116-120 | no event outside the table changes |
| Utf8.DecodeEncode | crates/agent-dash/src/messages.rs:65-68 | decoding undoes encoding, for every string of scalar values |
| Utf8.EncodeDecode | crates/agent-dash/src/messages.rs:65-68 | whatever decodes is the encoding of the result: one well-formed byte sequence for each text |
| Utf8.BoundaryIsOffset | crates/agent-dash/src/messages.rs:604-606 | a byte position that passes the boundary test is the end of a prefix of characters |
| Utf8.OffsetIsBoundary | crates/agent-dash/src/messages.rs:604-606 | and the end of every prefix passes it |
| Utf8.MidCharacterFails | crates/agent-dash/src/messages.rs:648-651 | bytes that start inside a character do not decode |
| Transcript.LinesConcat | crates/agent-dash/src/messages.rs:68-72 | text that ends a line is split into lines independently of what follows |
| Transcript.LinesInFull | crates/agent-dash/src/messages.rs:68-70 | a text without newline is one line, and a terminated line comes first, less a carriage return before its newline |
| Transcript.SplitLines | crates/agent-dash/src/messages.rs:68-72 | the loop yields the non-blank lines |
| Transcript.ParseAll | crates/agent-dash/src/messages.rs:23-28 | the loop yields the messages of the lines that parse |
| Transcript.ReadNewMessages | crates/agent-dash/src/messages.rs:45-76 | what is read beyond the offset, and the new offset, with every failure leaving both alone; never backwards |
| Transcript.IncrementalIsWhole | crates/agent-dash/src/messages.rs:45-76 | reads at line ends of a growing file give, together, the messages of the appended text, and end at the file's end |
| Transcript.OffsetsMonotone | crates/agent-dash/src/messages.rs:45-76 | over any sequence of reads of any files the offset never goes back |
| Transcript.CutExactly | crates/agent-dash/src/messages.rs:68-72 | a cut in a text leaves the lines of the whole if and only if it is harmless, and no way of reading on makes up for a harmful one |
| Transcript.IncrementalExactly | crates/agent-dash/src/messages.rs:45-76 | successive reads of any growing file hand the parser the lines of the appended text if and only if every successful read stops at a line end, in a blank line or right before a line's terminator |
| Transcript.IncrementalForEveryParser | crates/agent-dash/src/messages.rs:45-76 | and then, and only then, every parser yields the messages of the whole |
| Transcript.LineEndsAreHarmless | crates/agent-dash/src/messages.rs:45-76 | reads at line ends meet that condition |
| Transcript.MidLineReadSplitsLine | crates/agent-dash/src/messages.rs:68-75 | in a file of one terminated line without a final carriage return, a read between two non-blank halves makes every parser see the halves instead of the line |
| Transcript.TailIsSuffixExactly | crates/agent-dash/src/messages.rs:631-671 | the tail's lines end the whole file's lines if and only if the window does not start inside a non-blank line it holds no end of |
| Transcript.TailMessages | crates/agent-dash/src/messages.rs:32-40 | then the result is a suffix of the file's messages, and its last `limit` if the tail yields that many or is the whole file |
| Transcript.WindowInFull | crates/agent-dash/src/messages.rs:632-641 | the window is the last 128 KiB, or the whole of a shorter file |
| Transcript.TailOfShort | crates/agent-dash/src/messages.rs:631-671 | a file that fits the window is read whole |
| Transcript.TailAfterNewline | crates/agent-dash/src/messages.rs:656-670 | of a longer one the tail is every line after the window's first newline, and the file's lines are those before it followed by the tail |
| Transcript.TailWithoutNewline | crates/agent-dash/src/messages.rs:656-670 | a window without newline is read as it is |
| Transcript.MessagesInFull | crates/agent-dash/src/messages.rs:32-40 | the result is the last `limit` messages after the window's first newline, or all there are after it; so the file's last `limit` if and only if there are that many after it or none before it |
| Transcript.LongLineIsCut | crates/agent-dash/src/messages.rs:631-671 | every file of one line of letters longer than the window is read as a line it does not have |
| Transcript.MidCharacterTail | crates/agent-dash/src/messages.rs:641-651 | a window that starts inside a character gives nothing |
| Transcript.FittingIsLargest | crates/agent-dash/src/messages.rs:602-606 | the prefix kept is the largest that fits and wastes at most 3 bytes |
| Transcript.FloorBoundary | crates/agent-dash/src/messages.rs:603-606 | backing off by bytes ends at the largest character boundary not above the limit, within 3 bytes |
| Transcript.TruncateOutput | crates/agent-dash/src/messages.rs:613-624 | the text itself, or its longest fitting prefix and three dots, always well-formed |
| Transcript.TruncateDetail | crates/agent-dash/src/messages.rs:598-609 | the same on the flattened line with an ellipsis |
| Watch.ChangeOffersOnce | crates/agent-dash/src/daemon.rs:719-750 | one change offers a subscriber with one watch what its own format's read found, once, whatever the other formats and their order; the last read decides the shared offset |
| Watch.RunOffers | crates/agent-dash/src/daemon.rs:719-757 | over every undisturbed run a watching subscriber is offered what successive reads of its own would give |
| Watch.WatcherGetsAppendedText | crates/agent-dash/src/daemon.rs:300-321 | from its watch on, and with reads at line ends, it is offered exactly the messages of the appended text |
| Watch.WatcherGetsExactly | crates/agent-dash/src/daemon.rs:300-321 | over any undisturbed run of a growing transcript it is offered the messages of the lines read, which are the lines of the appended text if and only if no read stops harmfully |
| Watch.RepeatsExactly | crates/agent-dash/src/daemon.rs:722-737 | a second change that finds the same transcript offers nothing more if and only if the session is in the table or there were no messages |
| Watch.GoneSessionRun | crates/agent-dash/src/daemon.rs:722-737 | from the empty table and for all ids, a watched session ends and two changes offer the whole transcript twice |
| Watch.GoneSessionRereads | crates/agent-dash/src/daemon.rs:722-737 | a watched session outside the table has its whole transcript offered at every change |
| Watch.EarlierFormatMissesGrowth | crates/agent-dash/src/daemon.rs:731-737 | a format keeps what its own read saw of a transcript that another format's later read finds grown, and has all lines if and only if what followed is blank and the cut harmless |
| Watch.GrowthIsLostRun | crates/agent-dash/src/daemon.rs:731-737 | from the empty table and for all ids and formats, lines that arrive between the reads of two formats never reach the earlier one |
| Watch.UnwatchedIsSilent | crates/agent-dash/src/daemon.rs:323-331 | after a session is unwatched nobody is offered anything of it until they watch it again, over every run |
| Watch.ClosedIsSilent | crates/agent-dash/src/daemon.rs:752-756 | nor is a subscriber found closed at a change |
| Watch.ByFormat | crates/agent-dash/src/daemon.rs:726-729 | the grouping loop puts each subscriber under its format, in order |
| Watch.OfferAll | crates/agent-dash/src/daemon.rs:738-748 | the nested loops offer message by message to each sender |
| Watch.SessionWatches.WatchSession | crates/agent-dash/src/daemon.rs:300-322 | the offset jumps to the file's size if the session and its path are known; the subscriber is added |
| Watch.SessionWatches.UnwatchSession | crates/agent-dash/src/daemon.rs:323-331 | every subscriber of the session goes and its offset is forgotten |
| Watch.SessionWatches.ServeAll | crates/agent-dash/src/daemon.rs:731-749 | one round for each format, all from the offset captured before |
| Watch.SessionWatches.FileChanged | crates/agent-dash/src/daemon.rs:719-757 | the whole arm, with the removal of closed subscribers |
| Pairing.FivePassesAreOne | crates/agent-dash/src/relay_connector.rs:306-312 | the five replacements amount to one character-wise encoding |
| Pairing.EncodedIsSafe | crates/agent-dash/src/relay_connector.rs:306-312 | the result has no raw ampersand, equals sign, plus sign or space |
| Pairing.DecodeEncoded | crates/agent-dash/src/relay_connector.rs:306-312 | percent-decoding (section 2.1 of RFC 3986) undoes it, for every string |
| Pairing.CutQuery | android/app/src/main/java/com/agentdash/app/viewmodel/MainViewModel.kt:96-102 | a query cut where a fragment begins (section 3.5 of RFC 3986) is the query of the cut fields |
| Pairing.ReadQuery | android/app/src/main/java/com/agentdash/app/viewmodel/MainViewModel.kt:96-102 | splitting and decoding a printed query gives its fields back |
| Pairing.RoundTripExactly | crates/agent-dash/src/relay_connector.rs:79-91 | the phone recovers the configuration if and only if no value holds a number sign |
| Pairing.PairingUri | crates/agent-dash/src/relay_connector.rs:79-91 | the printed link, what reading it yields for every configuration, and the exact round trip |
| Terminal.FindPrompt | crates/agent-dash/src/wrapper.rs:50-62 | the first prompt character in the first four columns, or none there |
| Terminal.CollectDim | crates/agent-dash/src/wrapper.rs:68-83 | the dim cells after the prompt, from left to right, all of them |
| Terminal.JoinParts | crates/agent-dash/src/wrapper.rs:85-104 | the gap-filling loop renders exactly the columns from the first dim cell to the last reachable by steps of at most 3 |
| Terminal.DetectSuggestion | crates/agent-dash/src/wrapper.rs:37-118 | the trimmed rendering of that region on the lowest prompt row that a column follows; nothing if it is blank, if there is no such row, or on the alternate screen |
| Terminal.PromptExactly | crates/agent-dash/src/wrapper.rs:50-58 | a prompt is a cell with exactly one of the two prompt characters |
| Terminal.PromptInFull | crates/agent-dash/src/wrapper.rs:50-62 | a row has a prompt exactly if one of its first four cells is one |
| Terminal.RunShows | crates/agent-dash/src/wrapper.rs:68-110 | one run of dim texts shows as its texts, trimmed, or not at all if they are blank |
| Terminal.NearRunsShow | crates/agent-dash/src/wrapper.rs:85-104 | two runs with one or two columns between them show as one, an empty cell between them as a space |
| Terminal.TrimExactly | crates/agent-dash/src/wrapper.rs:106-106 | trimming takes all whitespace off both ends and nothing else |
| Terminal.RegionUnique | crates/agent-dash/src/wrapper.rs:85-104 | a row has at most one such region |
| Terminal.SuggestsUnique | crates/agent-dash/src/wrapper.rs:37-118 | so the specification determines the suggestion |
| Terminal.RowsAboveDoNotMatter | crates/agent-dash/src/wrapper.rs:114-117 | rows above a prompt row that a column follows have no influence |
| Terminal.OneBatch | crates/agent-dash/src/wrapper.rs:601-610 | one batch takes consecutive chunks, and stops as soon as nothing is ready or it is over the size |
| Terminal.SendBatches | crates/agent-dash/src/wrapper.rs:599-634 | batches concatenate to the queued chunks in order up to where the sender stops, which it does early only when the session has ended or a lost connection is not restored; everything arrives if and only if all was taken and every send succeeded; with chunks of at most 4096 bytes no batch exceeds 16384 + 4096 |

## Left out

- Sockets, WebSockets, task scheduling, processes, terminals and file watching: they appear as arbitrary sequences of messages, actions and file contents.
- JSON text, HTML and Markdown rendering, terminal emulation, base64, encryption, key generation and QR codes: library work; messages are datatypes, a screen is a grid of cells, line parsing is an arbitrary total function.
- The clock: each message carries one time `now`, while the code may read the clock more than once while handling it.
- Failures of JSON encoding, which drop an event: encoding is taken to succeed.
- The arms GetState, GetMessages, ListSessions, WatchTerminal, UnwatchTerminal, TerminalOutput, TerminalInput, TerminalResize and CreateSession, the redraw sent on re-registration, and saving of images: plumbing around state this model does not hold.
- The transcript search on disk: the path it finds is an argument of the messages that need it.
- The state file written from time to time and the flag that asks for it.
- The tool icon in a listed session, a table lookup.
- The client's optimistic deletion when its user answers, and its notifications.
- The GNOME, web and Android interfaces otherwise, and the superseded scripts outside the workspace.
- The manager's command queue has no capacity in the model; a handler that waits for room is one whose step comes later.
- Sequence numbers and times are unbounded; only the peer count's 32-bit truncation is modelled.
- Daemon.Daemon.Hook: the transcript offset of a session is kept in `Watch`, not in the session table; the two meet only through `Known` and `Gone` inputs.
- Watch.RunOffers: excludes unwatching, a second watch that moves the shared offset, and a change whose formats find different files, because both act on every subscriber of the session.
- Transcript.ReadNewMessages: the length is that of the bytes read; a file that grows during one read, between asking its length and reading it, is not modelled.
- Transcript.TailMessages: assumes the whole file is well-formed UTF-8, without which there is no whole-file parse to compare with.
- Pairing.PairingUri: the phone's reader accepts user information and ports around the host and decodes escapes of bytes above 127; the model's reader does not, and no printed link contains either.
- Terminal.SendBatches: time-outs while nothing is queued are not modelled, only the look at the running flag before each batch; a chunk the full 64-chunk queue refused never counts as queued.
