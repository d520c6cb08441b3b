# World session core (cmangos-wotlk `WorldSession`)

A Dafny model of the per-session logic of the world server's `WorldSession`:

- how an incoming packet is routed (run at once, map queue, generic queue);
- which execution context may process a packet (the map and world filters);
- the world tick, which swaps out the generic queue and drains it through a status-based admission switch, then evaluates the session lifecycle (CREATED, CHAR_SELECTION, READY, OFFLINE);
- the map tick, which drains the map queue;
- what logout and kick do to the session's own fields;
- the reconnect handoff through a pending transport;
- the small helpers around them: the account-data cache, the tutorial flags, clock synchronisation, and the layout decisions of three outbound messages.

Layout:

- `protocol.dfy`: packets, opcode-table rows, the transport and the player as the session sees them, and the ordered event log. The event log stands for everything observable the session does: messages sent, handlers run, diagnostics, transport actions, and requests to other subsystems.
- `filters.dfy`: the two filter predicates and QueuePacket's three-way routing.
- `session_spec.dfy`: a value snapshot `Session` of the session's fields, the lifecycle operations as functions over it, and the state machine of the world tick.
- `dispatch.dfy`: the admission switch, the handler call with its exception path, the two queue drains, the movement filter, and what they guarantee.
- `messages.dfy`, `account_data.dfy`, `time_sync.dfy`: the helpers.
- `world_session.dfy`: the class `WorldSession`. Its fields mirror the source's members and are updated in place. Each method is proved against the function above that describes it; `View()` and `Sync()` read the fields as a value.

Modelling decisions:

- A packet is its opcode and its read and write cursors.
- The opcode table is a function from opcode to (processing mode, status).
- A handler is opaque. A parameter says how many bytes it reads, whether it raises a ByteBufferException, and whether it closes the transport.
- Clock reads are parameters (`now` in seconds, `nowMs`/`currentMs` in milliseconds).
- `ShouldLogOut`, `ShouldDisconnect`, `LogoutRequest` and `IsOffline` are defined in `WorldSession.h`, which is not part of this model. They are modelled as follows:
  - `IsOffline` is `state == Offline`.
  - `LogoutRequest(t)` sets the logout time.
  - `ShouldLogOut` and `ShouldDisconnect` hold once a logout request is pending and `now` has reached it plus a configured delay (`Timeouts`).
- `KickPlayer`'s `inPlace` is a parameter. The header's default (false) is what the CHAR_SELECTION tick passes.
- The constant values of `Opcodes.h` and of the account-data masks are not part of this model either. They use the protocol's values, and only their distinctness and bit patterns matter:
  - MSG_MOVE_SET_FACING 0x0DA;
  - MSG_MOVE_HEARTBEAT 0x0EE;
  - CMSG_SET_ACTIVE_VOICE_CHANNEL 0x3D3;
  - the transfer-abort reasons 7, 8 and 9;
  - GLOBAL_CACHE_MASK 0x15 and PER_CHARACTER_CACHE_MASK 0xEA;
  - eight account-data types.
- The constructor leaves `m_kickTime` and the tutorial flags `m_Tutorials` uninitialised; the model starts the deadline at 0 and the flags at zero.

LogoutPlayer re-arms the character-selection deadline on every call (:798), so a second logout is not a no-op. `SessionSpec.LogoutIdempotent` proves that two logouts equal one logout at the later time.

## Model

| member | source | states |
|---|---|---|
| Filters.FiltersPartition | src/game/Server/WorldSession.cpp:61-97 | an in-place opcode passes both filters; any other opcode passes exactly one of them, and passes the map filter only when it is thread-safe and the player exists and is in the world |
| Filters.RouteFor | src/game/Server/WorldSession.cpp:261-283 | immediate opcodes run now, map-thread opcodes go to the map queue, in-place and thread-unsafe opcodes go to the generic queue (each an if-and-only-if) |
| Dispatch.Enqueue | src/game/Server/WorldSession.cpp:261-283 | an immediate opcode runs its handler once and leaves both queues unchanged, with its exception passed through; a map-thread packet is appended to the back of the map queue only; any other packet is appended to the back of the generic queue only; queuing raises nothing |
| WorldSessions.WorldSession.QueuePacket | src/game/Server/WorldSession.cpp:261-283 | the in-place queue update and handler call equal Enqueue on the old state |
| Dispatch.WithoutMovement | src/game/Server/WorldSession.cpp:285-303 | the filtered queue holds exactly the packets of the queue that are neither facing nor heartbeat, and is no longer than it |
| Dispatch.WithoutMovementAppend | src/game/Server/WorldSession.cpp:285-303 | the filter distributes over concatenation, so the kept packets stay in their relative order |
| Dispatch.WithoutMovementKeepsOthers | src/game/Server/WorldSession.cpp:285-303 | a queue without movement packets is left exactly as it is |
| Dispatch.WithoutMovementIdempotent | src/game/Server/WorldSession.cpp:285-303 | filtering twice is filtering once |
| WorldSessions.WorldSession.DeleteMovementPackets | src/game/Server/WorldSession.cpp:285-303 | the erase loop leaves the map queue equal to WithoutMovement of the old map queue and changes no other field |
| WorldSessions.MovementFilterStep | src/game/Server/WorldSession.cpp:289-302 | one iteration of the erase loop, whether it erases under the cursor or steps over it, keeps the loop's relation to the original queue |
| Dispatch.Reject | src/game/Server/WorldSession.cpp:305-312 | a refused packet leaves one diagnostic, changes nothing else, and runs no handler |
| WorldSessions.WorldSession.LogUnexpectedOpcode | src/game/Server/WorldSession.cpp:305-312 | records the refusal exactly as Reject |
| Dispatch.RunHandler | src/game/Server/WorldSession.cpp:1312-1334 | the handler runs once; its exception escapes exactly when it faults; otherwise an unread payload tail adds one diagnostic; only the transport's closed flag can change |
| WorldSessions.WorldSession.ExecuteOpcode | src/game/Server/WorldSession.cpp:1312-1334 | the handler call and the exception it hands back equal RunHandler |
| Dispatch.FaultWithoutPlayerDereferencesNull | src/game/Server/WorldSession.cpp:333-341 | an AUTHED packet is admitted with no player attached; if its handler raises with kicking configured, the code as written dereferences the missing player, while the corrected decision posts no kick |
| Dispatch.KickDecisionFor | src/game/Server/WorldSession.cpp:323-343 | a kick is scheduled exactly when kicking on bad packets is configured and a player exists, and names that player; never a null dereference; it agrees with the code as written wherever that does not dereference null |
| Dispatch.OnByteBufferFault | src/game/Server/WorldSession.cpp:323-343 | a caught ByteBufferException logs one diagnostic, and posts the player's kick to the messager when configured and a player exists; nothing else changes |
| WorldSessions.WorldSession.ProcessByteBufferException | src/game/Server/WorldSession.cpp:323-343 | the diagnostic and the posted kick equal OnByteBufferFault |
| Dispatch.Execute | src/game/Server/WorldSession.cpp:366-443 | a handler run inside the tick's try block records exactly one more run handler; it changes only the log, the messager and the transport's closed flag |
| WorldSessions.WorldSession.ExecuteCaught | src/game/Server/WorldSession.cpp:366-443 | the handler call with its catch path equals Execute |
| Dispatch.EndGrace | src/game/Server/WorldSession.cpp:416-419 | the recent-logout flag stays set only if it was set and the opcode is the voice-channel one; nothing else changes |
| WorldSessions.WorldSession.EndGrace | src/game/Server/WorldSession.cpp:416-419 | clears the recent-logout flag exactly as Dispatch.EndGrace |
| Dispatch.Dispatch | src/game/Server/WorldSession.cpp:365-438 | a dispatch changes nothing but the log, the messager, the transport's closed flag and the recent-logout flag; that flag is cleared only by an admitted AUTHED packet other than the voice-channel opcode |
| Dispatch.DispatchRunsIffGate | src/game/Server/WorldSession.cpp:365-438 | a handler runs for the packet if and only if its status's gate holds: LOGGEDIN needs a player in the world; LOGGEDIN_OR_RECENTLY_LOGGEDOUT a player or the recent-logout flag; TRANSFER a player not in the world; AUTHED not in the queue; NEVER, UNHANDLED and unknown statuses never |
| WorldSessions.WorldSession.DispatchPacket | src/game/Server/WorldSession.cpp:365-438 | the in-place admission switch equals Dispatch on the old state |
| Dispatch.Drain | src/game/Server/WorldSession.cpp:358-444 | the dropped packets are a suffix of the copy, so the dispatched ones are a prefix taken front to back; packets are dropped only once the transport is absent or closed |
| Dispatch.DrainDispatchesAll | src/game/Server/WorldSession.cpp:358-444 | on an open transport that no handler closes, every packet of the copy is dispatched and none is dropped |
| Dispatch.DrainClosedDropsAll | src/game/Server/WorldSession.cpp:358 | with the transport absent or closed, nothing is dispatched and the whole copy is dropped |
| Dispatch.DrainRunsOnlyAdmitted | src/game/Server/WorldSession.cpp:358-444 | every handler run during a drain passed its gate as it stood when the drain began |
| Dispatch.DrainRunsInQueueOrder | src/game/Server/WorldSession.cpp:358-444 | when every packet is admitted whatever the grace flag says and none closes the transport, the handlers run for exactly the queued packets, in queue order |
| Dispatch.GateOnlyWeakens | src/game/Server/WorldSession.cpp:365-438 | a gate that holds after a dispatch already held before it |
| WorldSessions.WorldSession.DrainCopy | src/game/Server/WorldSession.cpp:358-444 | the world tick's pop-front loop equals Drain of the copy |
| SessionSpec.RunMessages | src/game/Server/WorldSession.cpp:348 | the messager carries out every pending kick in posting order and is left empty; nothing else changes |
| WorldSessions.WorldSession.ExecuteMessages | src/game/Server/WorldSession.cpp:348 | runs the messager exactly as RunMessages |
| Dispatch.UpdateTick | src/game/Server/WorldSession.cpp:346-550 | the world tick leaves the generic queue empty and the map queue unchanged, and never removes a session that was CREATED |
| WorldSessions.WorldSession.Update | src/game/Server/WorldSession.cpp:346-550 | the new fields and the keep/remove result equal UpdateTick on the old state |
| Dispatch.MapDispatch | src/game/Server/WorldSession.cpp:579-591 | the map tick runs a handler for a packet exactly when its status is LOGGEDIN |
| Dispatch.MapDrain | src/game/Server/WorldSession.cpp:574-592 | the as-written map loop dispatches a prefix of the copy and drops the rest; it never changes the recent-logout flag |
| Dispatch.MapDrainDispatchesHalf | src/game/Server/WorldSession.cpp:574-592 | from a copy of n packets the as-written loop dispatches at most ceil(n/2) and drops the rest; on an open transport that no handler closes, exactly ceil(n/2) |
| Dispatch.MapDrainDropsSecondOfTwo | src/game/Server/WorldSession.cpp:574-577 | two LOGGEDIN packets on an open session: the first runs and the second is dropped |
| Dispatch.MapDrainRunsOnlyLoggedIn | src/game/Server/WorldSession.cpp:574-592 | every handler the map loop runs belongs to a LOGGEDIN opcode |
| Dispatch.MapDrainAll | src/game/Server/WorldSession.cpp:574-592 | the corrected loop drops packets only once the transport is absent or closed |
| Dispatch.LoggedInOpcodes | src/game/Server/WorldSession.cpp:583 | every listed opcode has status LOGGEDIN, and the opcode of every LOGGEDIN packet of the queue is listed |
| Dispatch.MapDrainAllDispatchesAll | src/game/Server/WorldSession.cpp:574-592 | the corrected loop on an open transport that no handler closes drops nothing and runs every LOGGEDIN packet in order |
| Dispatch.UpdateMapTick | src/game/Server/WorldSession.cpp:566-593 | the map tick leaves the map queue empty and the generic queue, the state and the player unchanged |
| WorldSessions.WorldSession.UpdateMap | src/game/Server/WorldSession.cpp:566-593 | the swap and the index loop equal UpdateMapTick on the old state |
| SessionSpec.Send | src/game/Server/WorldSession.cpp:218-257 | a message goes out only over a present, open transport, and otherwise is dropped; nothing else changes |
| WorldSessions.WorldSession.SendPacket | src/game/Server/WorldSession.cpp:218-257 | sends exactly as Send |
| SessionSpec.SetOffline | src/game/Server/WorldSession.cpp:126-147 | the session ends OFFLINE without a transport, with the player kept; with a player, a friend-offline notice and a logout request stamped now; the old transport is closed if open and finalized; the queues, the deadline and the messager are unchanged |
| SessionSpec.NotifyOffline | src/game/Server/WorldSession.cpp:128-133 | only with a player: a friend-offline notice and the logout time set to now, and nothing else changes |
| SessionSpec.ReleaseSocket | src/game/Server/WorldSession.cpp:135-144 | a held transport is closed if still open, finalized and let go; without one nothing changes |
| WorldSessions.WorldSession.SetOffline | src/game/Server/WorldSession.cpp:126-147 | updates the fields exactly as SessionSpec.SetOffline |
| WorldSessions.WorldSession.NotifyOffline | src/game/Server/WorldSession.cpp:128-133 | updates the fields exactly as SessionSpec.NotifyOffline |
| WorldSessions.WorldSession.ReleaseSocket | src/game/Server/WorldSession.cpp:135-144 | updates the fields exactly as SessionSpec.ReleaseSocket |
| SessionSpec.SetOnline | src/game/Server/WorldSession.cpp:149-156 | READY with the deadline cleared if and only if a player and an open transport are present; otherwise no change |
| WorldSessions.WorldSession.SetOnline | src/game/Server/WorldSession.cpp:149-156 | updates the fields exactly as SessionSpec.SetOnline |
| SessionSpec.SetInCharSelection | src/game/Server/WorldSession.cpp:158-162 | CHAR_SELECTION with the inactivity deadline at now + 900 s; nothing else changes |
| WorldSessions.WorldSession.SetInCharSelection | src/game/Server/WorldSession.cpp:158-162 | updates the fields exactly as SessionSpec.SetInCharSelection |
| SessionSpec.AcceptSocket | src/game/Server/WorldSession.cpp:164-173 | refused if and only if a transport is already pending; when accepted, the transport is pending, the state is CREATED and nothing else changes |
| WorldSessions.WorldSession.RequestNewSocket | src/game/Server/WorldSession.cpp:164-173 | returns false and changes nothing while a transport is pending; otherwise the fields equal AcceptSocket's result and it returns true |
| SessionSpec.AcceptedSocketAdopted | src/game/Server/WorldSession.cpp:479-500 | after an accepted RequestNewSocket, the next lifecycle tick keeps the session in CHAR_SELECTION on the new transport with nothing pending; it finalizes the transport it replaces and greets the client with auth-ok if the new transport is open |
| SessionSpec.StateTick | src/game/Server/WorldSession.cpp:477-550 | the session is removed in exactly three cases: CHAR_SELECTION without an open transport; READY with a closed transport and no player; OFFLINE with a due disconnect, no pending transport and no open transport. A CREATED tick ends in CHAR_SELECTION with the deadline at now + 900 s and adopts any pending transport. READY with a closed transport and a player goes OFFLINE, keeping the player, with the transport finalized and cleared. A due OFFLINE disconnect logs the player out. The queues are untouched |
| WorldSessions.WorldSession.UpdateState | src/game/Server/WorldSession.cpp:477-550 | the switch's new fields and result equal StateTick |
| WorldSessions.WorldSession.UpdateCreated | src/game/Server/WorldSession.cpp:479-500 | the CREATED branch, in place |
| WorldSessions.WorldSession.AdoptRequestedSocket | src/game/Server/WorldSession.cpp:481-490 | the pending transport replaces the current one, which is dropped as by SetOffline unless already offline, and the client is greeted |
| WorldSessions.WorldSession.UpdateCharSelection | src/game/Server/WorldSession.cpp:501-518 | the CHAR_SELECTION branch, in place |
| WorldSessions.WorldSession.UpdateReady | src/game/Server/WorldSession.cpp:519-533 | the READY branch, in place |
| WorldSessions.WorldSession.UpdateOffline | src/game/Server/WorldSession.cpp:535-545 | the OFFLINE branch, in place |
| SessionSpec.LogoutRequest | src/game/Server/WorldSession.cpp:800 | the logout time becomes the given time (0 clears it); nothing else changes |
| WorldSessions.WorldSession.LogoutRequest | src/game/Server/WorldSession.cpp:800 | updates the field exactly as SessionSpec.LogoutRequest |
| SessionSpec.Logout | src/game/Server/WorldSession.cpp:596-801 | player or not: no player, the logout flag false, the recent-logout flag true, CHAR_SELECTION with the deadline at now + 900 s, and no logout request pending. An attached player is removed, with its save decision recorded, and its guid cleared; the client is told the logout completed. Without a player, only those flags, the state, the deadline and the logout time change. Transports, queues and the messager are untouched |
| SessionSpec.DetachPlayer | src/game/Server/WorldSession.cpp:604-793 | with a player: it is removed (saved or not), the player and the guid are cleared, and logout-complete is the last message sent; without one, nothing changes |
| SessionSpec.LogoutIdempotent | src/game/Server/WorldSession.cpp:795-800 | logging out twice equals logging out once at the later time |
| WorldSessions.WorldSession.LogoutPlayer | src/game/Server/WorldSession.cpp:596-801 | updates the fields exactly as Logout |
| WorldSessions.WorldSession.DetachPlayer | src/game/Server/WorldSession.cpp:604-793 | updates the fields exactly as SessionSpec.DetachPlayer |
| SessionSpec.Kick | src/game/Server/WorldSession.cpp:804-829 | records whether to save; in place it is a logout at once; otherwise only a logout request back-dated by 20 s, and nothing else changes |
| SessionSpec.KickDueNow | src/game/Server/WorldSession.cpp:827 | a kick that is not in place makes the logout due at once when the logout delay is at most the 20 s back-dating (and the back-dated time is not the 0 meaning "no request") |
| SessionSpec.KickThenTickLogsOut | src/game/Server/WorldSession.cpp:501-533 | under the same delay, a kick followed by the lifecycle tick at the same time, in CHAR_SELECTION or READY with an open transport and no player loading, logs the player out, saved as the kick asked, and keeps the session in CHAR_SELECTION |
| WorldSessions.WorldSession.KickPlayer | src/game/Server/WorldSession.cpp:804-829 | updates the fields exactly as Kick |
| Messages.MotdLines | src/game/Server/WorldSession.cpp:844-864 | no lines exactly for an empty message |
| Messages.MotdLinesHaveNoSeparator | src/game/Server/WorldSession.cpp:852-853 | no extracted line contains '@' |
| Messages.MotdLinesRoundTrip | src/game/Server/WorldSession.cpp:852-853 | joining the lines with '@' gives back the message, less a trailing '@' |
| Messages.SplitMotd | src/game/Server/WorldSession.cpp:852-853 | the getline loop extracts exactly MotdLines |
| WorldSessions.WorldSession.SendMotd | src/game/Server/WorldSession.cpp:844-864 | sends the message of the day as the lines of MotdLines |
| Messages.AuthWaitResponse | src/game/Server/WorldSession.cpp:968-974 | auth-ok if and only if the queue position is 0; queued otherwise |
| WorldSessions.WorldSession.SendAuthWaitQue | src/game/Server/WorldSession.cpp:968-974 | sends AuthWaitResponse's reply |
| Messages.LittleEndian32 | src/game/Server/WorldSession.cpp:1150 | four bytes that decode back to the value |
| Messages.TransferAbortedPayload | src/game/Server/WorldSession.cpp:1147-1161 | the map id in four bytes, then the reason; the argument byte is present exactly for reasons 7, 8 and 9 |
| WorldSessions.WorldSession.SendTransferAborted | src/game/Server/WorldSession.cpp:1147-1161 | sends TransferAbortedPayload's bytes |
| AccountStore.Verdict | src/game/Server/WorldSession.cpp:997-1010 | a row is stored if and only if its type is in range and selected by the mask; it is out of range if and only if its type is at least 8 |
| AccountStore.AsTime | src/game/Server/WorldSession.cpp:1012 | an unsigned 64-bit time below 2^63 keeps its value as time_t; any time_t value is below 2^63 |
| AccountStore.LastRowOfType | src/game/Server/WorldSession.cpp:993-1015 | the row found is one of the rows, has the type asked for, and no later row has that type; when none is found, no row has that type |
| AccountStore.LoadedSlot | src/game/Server/WorldSession.cpp:984-1018 | after a load, a slot outside the mask is unchanged; a slot in the mask holds the last row of its type, or is empty when the result has none |
| AccountStore.RowDiagnostic | src/game/Server/WorldSession.cpp:997-1010 | a row produces no diagnostic if and only if it is stored; otherwise exactly one, naming its type and whether it was out of range |
| AccountStore.IgnoredRows | src/game/Server/WorldSession.cpp:993-1015 | at most one diagnostic per row, and none at all if and only if every row is stored |
| AccountStore.IgnoredRowsAppend | src/game/Server/WorldSession.cpp:993-1015 | the diagnostics of a result are those of its parts in order, so each row contributes its own diagnostic in row order |
| AccountStore.IgnoredRowsSingle | src/game/Server/WorldSession.cpp:997-1010 | a single row logs exactly its own diagnostic |
| WorldSessions.WorldSession.LoadAccountData | src/game/Server/WorldSession.cpp:984-1018 | the cache afterwards equals LoadedAccountData; one diagnostic per ignored row, in row order |
| WorldSessions.WorldSession.ResetAccountData | src/game/Server/WorldSession.cpp:986-988 | exactly the slots the mask selects are emptied |
| AccountStore.StoreAccountData | src/game/Server/WorldSession.cpp:1020-1061 | an account-wide type is written for the account; a per-character type is written for the current character; without a character guid a per-character type changes nothing at all; whenever a row is written the slot holds the new time and data |
| AccountStore.CacheMasksPartition | src/game/Server/WorldSession.cpp:1022 | every one of the eight types is in exactly one of the account-wide and per-character masks |
| WorldSessions.WorldSession.SetAccountData | src/game/Server/WorldSession.cpp:1020-1061 | the cache afterwards and the row written equal StoreAccountData |
| AccountStore.LoadedTutorials | src/game/Server/WorldSession.cpp:1075-1100 | always eight flags |
| WorldSessions.WorldSession.LoadTutorialsData | src/game/Server/WorldSession.cpp:1075-1100 | flags all zero and state NEW without a row; otherwise the last row's flags and state UNCHANGED |
| AccountStore.TutorialSave | src/game/Server/WorldSession.cpp:1110-1144 | nothing is written if and only if the flags are unchanged; an update if and only if they changed; any write carries the current flags |
| AccountStore.SaveAfterLoad | src/game/Server/WorldSession.cpp:1110-1144 | saving right after a load writes nothing when the flags came from a row, and inserts eight zero flags when there was none |
| WorldSessions.WorldSession.SaveTutorialsData | src/game/Server/WorldSession.cpp:1110-1144 | writes TutorialSave's statement for the old state and always ends UNCHANGED |
| TimeSync.SynchronizedTime | src/game/Server/WorldSession.cpp:1344-1354 | the server time is the client time shifted by the clock delta when a delta is known and the shifted value fits in 0..0xFFFFFFFF; otherwise it is the current server time |
| WorldSessions.WorldSession.SynchronizeMovement | src/game/Server/WorldSession.cpp:1344-1354 | returns SynchronizedTime for the session's clock delta |
| TimeSync.SyncReset | src/game/Server/WorldSession.cpp:1380-1384 | the counter restarts at 0, no request is outstanding, and the timer is kept |
| WorldSessions.WorldSession.ResetTimeSync | src/game/Server/WorldSession.cpp:1380-1384 | updates the fields exactly as SyncReset |
| TimeSync.SyncSent | src/game/Server/WorldSession.cpp:1386-1397 | the current counter becomes outstanding, stamped with the send time, and other requests keep theirs; the timer is 5 s after request 0 and 10 s otherwise; the counter advances with 32-bit wrap-around |
| TimeSync.SyncAfterReset | src/game/Server/WorldSession.cpp:1380-1397 | after a reset and n < 2^32 requests: the counter is n; exactly requests 0 to n-1 are outstanding, each with its own send time; the timer is 5 s after the first request and 10 s after every later one |
| WorldSessions.WorldSession.SendTimeSync | src/game/Server/WorldSession.cpp:1386-1397 | sends the request with the old counter; the bookkeeping equals SyncSent |
| WorldSessions.WorldSession.RecordTimeSync | src/game/Server/WorldSession.cpp:1392-1396 | updates the bookkeeping exactly as SyncSent |
| WorldSessions.WorldSession.constructor | src/game/Server/WorldSession.cpp:100-106 | a new session is CREATED with no player, guid 0, empty queues, no pending transport, no logout request, saving enabled, empty account-data slots, zero tutorial flags (the source leaves them uninitialised) and fresh time-sync bookkeeping |

## Left out

- Dispatch.DrainRunsOnlyAdmitted and Dispatch.GateOnlyWeakens describe the model only. In the model no handler, and no delayed teleport, can attach or detach the player, move it in or out of the world, or change the queue flag. In the source they can: the login handler attaches the player (:1323), and the delayed far teleport (:1326-1329) takes it out of the world mid-drain. A later packet of the same copy can then pass a gate that failed when the drain began.
- SessionSpec.KickDueNow and SessionSpec.KickThenTickLogsOut assume that the logout delay is at most the 20 s a kick back-dates by. That delay is set in WorldSession.h, which is not part of this model.
- Gameplay teardown inside LogoutPlayer (:598-760) is left out: the far-teleport wait loop, loot, battlegrounds, guild, group, social, the save itself, and map removal. These are calls into classes outside this file. A single `PlayerRemoved(guid, saved)` event stands for them.
- SQL statements and transactions are persistence I/O. LoadAccountData takes the query's rows as a sequence, LoadTutorialsData takes the tutorial rows, and SetAccountData and SaveTutorialsData return the statement they would issue.
- Mutexes and lock guards are left out. The queues are plain sequences with single-threaded semantics, so concurrent pushes during a swap are not modelled.
- The opcode counter (`IncrementOpcodeCounter`, :263) is left out because it is global statistics.
- SendPacket's wire layout and debug traffic statistics are left out; a sent message is recorded as an event.
- ReadAddonsInfo, SendAddonsInfo and SendRedirectClient are left out because they are zlib, HMAC and address-parsing library calls.
- The formatted notification variants are left out because they depend on vsnprintf.
- The playerbot conditional blocks are left out because they belong to an optional subsystem.
- The destructor is left out, since the model has no object lifetime.
- The messager carries arbitrary closures in the source; the model only carries the kicks this file posts to it. Carrying out a kick is recorded as `KickRequested(guid)`, because ObjectAccessor::KickPlayer is outside this file.
- WorldSession.h and Opcodes.h are not part of this model. The header's inline members are modelled as described above.
- Dispatch.RunHandler: the unprocessed-tail diagnostic is recorded whatever the log level, although the source emits it only at DEBUG level. The delayed teleport that ExecuteOpcode performs for a player after the handler is left out, because it is gameplay.
- WorldSessions.WorldSession.ExecuteOpcode: the same two omissions as Dispatch.RunHandler.
- Dispatch.Enqueue: the immediate path records the tail diagnostic regardless of log level, as Dispatch.RunHandler does.
- Dispatch.Reject: STATUS_NEVER, STATUS_UNHANDLED and unknown statuses log directly rather than through LogUnexpectedOpcode. The model records every refusal as one `Rejected` event carrying its reason.
- Dispatch.OnByteBufferFault: this follows the corrected kick decision (Findings, second row), not the null dereference of the code as written.
- WorldSessions.WorldSession.ProcessByteBufferException: follows the corrected kick decision, as Dispatch.OnByteBufferFault does.
- WorldSessions.WorldSession.KickPlayer: the playerbot branch (:813-825) is left out; the model takes the non-bot path.
- TimeSync.SynchronizedTime: the clock delta is an unbounded integer, so the int64 overflow of `ctime + delta` for a delta near 2^63 is not modelled.
- SessionSpec.LogoutRequest: the second argument KickPlayer passes (false) is not modelled, because its meaning lies in WorldSession.h.
- WorldSessions.WorldSession.LoadTutorialsData: the query itself is left out; the rows are passed in.

## Findings

| source | as written | input that shows it | evidently intended | confidence | as-written member | corrected member |
|---|---|---|---|---|---|---|
| src/game/Server/WorldSession.cpp:574-577 | the loop index `i` grows while `pop_front` shrinks the copy it is compared with, so only the first ceil(n/2) packets are dispatched and the rest are destroyed with the copy | a map queue of two LOGGEDIN packets on an open session: the first runs, the second is dropped | dispatch every packet of the copy while the transport is open | not executed | Dispatch.MapDrainDropsSecondOfTwo | Dispatch.MapDrainAllDispatchesAll |
| src/game/Server/WorldSession.cpp:333-341 | with kicking on bad packets configured, `_player->GetObjectGuid()` is read without a null check | a handler that raises a ByteBufferException for an AUTHED or LOGGEDIN_OR_RECENTLY_LOGGEDOUT packet before a player is attached (`KickDecisionAsWritten(true, None) == NullDereference`) | post a kick only when there is a player to name | not executed | Dispatch.FaultWithoutPlayerDereferencesNull | Dispatch.KickDecisionFor |
