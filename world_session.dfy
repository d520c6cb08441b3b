/**
 * The world session as an object: its fields are updated in place by the
 * methods below, each of which is proved against the pure description in
 * SessionSpec, Dispatch, Messages, AccountStore or TimeSync.
 */
module WorldSessions {
  import opened Protocol
  import opened Filters
  import opened SessionSpec
  import opened Dispatch
  import opened Messages
  import opened AccountStore
  import opened TimeSync

  class WorldSession {
    // packet queues
    var recvQueue: seq<Packet>
    var recvQueueMap: seq<Packet>
    // player and transports
    var player: Option<Player>
    var guidLow: nat
    var socket: Option<Socket>
    var requestSocket: Option<Socket>
    // lifecycle
    var state: SessionState
    var kickTime: int
    var logoutTime: int
    var inQueue: bool
    var playerLoading: bool
    var playerLogout: bool
    var recentlyLogout: bool
    var playerSave: bool
    // the messager's pending kicks and the observable events so far
    var kicks: seq<nat>
    var log: seq<Event>
    // caches
    const accountData: array<AccountData>
    const tutorials: array<uint32>
    var tutorialState: TutorialState
    // clock synchronisation
    var timeSyncNextCounter: uint32
    var pendingTimeSyncRequests: map<uint32, uint32>
    var timeSyncTimer: nat
    var timeSyncClockDelta: int

    const opcodeTable: Opcode -> OpcodeHandler
    const timeouts: Timeouts

    ghost predicate Valid()
      reads this
    {
      accountData.Length == NumAccountDataTypes && tutorials.Length == NumTutorialFlags
    }

    /** The session fields as a value. */
    function View(): Session
      reads this
    {
      Session(recvQueue, recvQueueMap, player, guidLow, socket, requestSocket, state, kickTime, logoutTime,
              inQueue, playerLoading, playerLogout, recentlyLogout, playerSave, kicks, log)
    }

    /** The time-sync bookkeeping as a value. */
    function Sync(): SyncState
      reads this
    {
      SyncState(timeSyncNextCounter, pendingTimeSyncRequests, timeSyncTimer)
    }

    function EnvFor(handler: Packet -> HandlerOutcome, kickOnBadPacket: bool): Env
      reads this
    {
      Env(opcodeTable, handler, kickOnBadPacket)
    }

    /** A session starts CREATED, with no player, empty queues and caches, and saving enabled. */
    constructor (sock: Option<Socket>, table: Opcode -> OpcodeHandler, t: Timeouts)
      ensures Valid()
      ensures View() == Session([], [], None, 0, sock, None, Created, 0, 0, false, false, false, false, true, [], [])
      ensures Sync() == SyncState(0, map[], 0) && timeSyncClockDelta == 0 && tutorialState == TutorialUnchanged
      ensures opcodeTable == table && timeouts == t
      ensures accountData[..] == seq(NumAccountDataTypes, _ => EmptyAccountData)
      ensures tutorials[..] == seq(NumTutorialFlags, _ => 0)
      ensures fresh(accountData) && fresh(tutorials)
    {
      recvQueue, recvQueueMap := [], [];
      player, guidLow, socket, requestSocket := None, 0, sock, None;
      state, kickTime, logoutTime := Created, 0, 0;
      inQueue, playerLoading, playerLogout, recentlyLogout, playerSave := false, false, false, false, true;
      kicks, log := [], [];
      accountData := new AccountData[NumAccountDataTypes](_ => EmptyAccountData);
      tutorials := new uint32[NumTutorialFlags](_ => 0);
      tutorialState := TutorialUnchanged;
      timeSyncNextCounter, pendingTimeSyncRequests, timeSyncTimer, timeSyncClockDelta := 0, map[], 0, 0;
      opcodeTable, timeouts := table, t;
    }

    /** SendPacket: only over a present, open transport. */
    method SendPacket(m: Outbound)
      modifies this`log
      ensures View() == Send(old(View()), m)
    {
      if socket.Some? && !socket.value.closed {
        log := log + [Sent(m)];
      }
    }

    method LogoutRequest(time: int)
      modifies this`logoutTime
      ensures View() == SessionSpec.LogoutRequest(old(View()), time)
    {
      logoutTime := time;
    }

    method SetOffline(now: int)
      modifies this`log, this`logoutTime, this`socket, this`state
      ensures View() == SessionSpec.SetOffline(old(View()), now)
    {
      NotifyOffline(now);
      ReleaseSocket();
      state := Offline;
    }

    /** The first half of SetOffline: only with a player. */
    method NotifyOffline(now: int)
      modifies this`log, this`logoutTime
      ensures View() == SessionSpec.NotifyOffline(old(View()), now)
    {
      if player.Some? {
        log := log + [FriendOffline(player.value.guid)];
        LogoutRequest(now);
      }
    }

    /** The second half of SetOffline: only with a transport. */
    method ReleaseSocket()
      modifies this`log, this`socket
      ensures View() == SessionSpec.ReleaseSocket(old(View()))
    {
      if socket.Some? {
        var id := socket.value.id;
        if !socket.value.closed {
          log := log + [SocketClosed(id)];
        }
        log := log + [SocketFinalized(id)];
        socket := None;
      }
    }

    method SetOnline()
      modifies this`state, this`kickTime
      ensures View() == SessionSpec.SetOnline(old(View()))
    {
      if player.Some? && socket.Some? && !socket.value.closed {
        state := Ready;
        kickTime := 0;
      }
    }

    method SetInCharSelection(now: int)
      modifies this`state, this`kickTime
      ensures View() == SessionSpec.SetInCharSelection(old(View()), now)
    {
      state := CharSelection;
      kickTime := now + CharSelectionTimeout;
    }

    method RequestNewSocket(sock: Socket) returns (accepted: bool)
      modifies this`requestSocket, this`state
      ensures accepted == AcceptSocket(old(View()), sock).Some?
      ensures accepted ==> View() == AcceptSocket(old(View()), sock).value
      ensures !accepted ==> View() == old(View())
    {
      if requestSocket.Some? {
        return false;
      }
      requestSocket := Some(sock);
      state := Created;
      return true;
    }

    /** LogoutPlayer, reduced to what the session itself keeps track of. */
    method LogoutPlayer(now: int)
      modifies this`playerLogout, this`log, this`player, this`guidLow, this`recentlyLogout,
               this`state, this`kickTime, this`logoutTime
      ensures View() == Logout(old(View()), now)
    {
      ghost var s := View();
      playerLogout := true;
      DetachPlayer();
      ghost var s2 := View();
      assert s2 == SessionSpec.DetachPlayer(s.(playerLogout := true));
      playerLogout := false;
      recentlyLogout := true;
      ghost var s3 := View();
      assert s3 == s2.(playerLogout := false, recentlyLogout := true);
      SetInCharSelection(now);
      LogoutRequest(0);
    }

    /** The teardown LogoutPlayer does only when a player is attached, as far as the session sees it. */
    method DetachPlayer()
      modifies this`log, this`player, this`guidLow
      ensures View() == SessionSpec.DetachPlayer(old(View()))
    {
      ghost var s := View();
      if player.Some? {
        log := log + [PlayerRemoved(player.value.guid, playerSave)];
        player := None;
        guidLow := 0;
        ghost var removed := View();
        assert removed == s.(log := s.log + [PlayerRemoved(s.player.value.guid, s.playerSave)], player := None, guidLow := 0);
        SendPacket(LogoutComplete);
        assert View() == Send(removed, LogoutComplete);
      }
    }

    method KickPlayer(save: bool, inPlace: bool, now: int)
      modifies this`playerSave, this`playerLogout, this`log, this`player, this`guidLow, this`recentlyLogout,
               this`state, this`kickTime, this`logoutTime
      ensures View() == Kick(old(View()), save, inPlace, now)
    {
      playerSave := save;
      if inPlace {
        LogoutPlayer(now);
        return;
      }
      LogoutRequest(now - KickBackdate);
    }

    /** ExecuteOpcode: runs the handler; an exception it raises is handed back to the caller. */
    method ExecuteOpcode(p: Packet, o: HandlerOutcome) returns (raised: bool)
      modifies this`log, this`socket
      ensures Outcome(View(), raised) == RunHandler(old(View()), p, o)
    {
      log := log + [Ran(p.opcode)];
      if o.closesSocket && socket.Some? {
        socket := Some(socket.value.(closed := true));
      }
      if o.faulted {
        return true;
      }
      if p.rpos + o.consumed < p.wpos {
        log := log + [UnprocessedTail(p.opcode)];
      }
      return false;
    }

    /** ProcessByteBufferException, with the kick posted only when there is a player to name. */
    method ProcessByteBufferException(p: Packet, kickOnBadPacket: bool)
      modifies this`log, this`kicks
      ensures View() == OnByteBufferFault(old(View()), p, kickOnBadPacket)
    {
      log := log + [BadPacket(p.opcode)];
      if kickOnBadPacket && player.Some? {
        kicks := kicks + [player.value.guid];
      }
    }

    /** ExecuteOpcode inside the try block of the world and map ticks. */
    method ExecuteCaught(p: Packet, env: Env)
      modifies this`log, this`socket, this`kicks
      ensures View() == Execute(old(View()), p, env)
    {
      var raised := ExecuteOpcode(p, env.handler(p));
      if raised {
        ProcessByteBufferException(p, env.kickOnBadPacket);
      }
    }

    /** LogUnexpectedOpcode and the other refusal diagnostics. */
    method LogUnexpectedOpcode(p: Packet, why: Rejection)
      modifies this`log
      ensures View() == Reject(old(View()), p, why)
    {
      log := log + [Rejected(p.opcode, why)];
    }

    method EndGrace(p: Packet)
      modifies this`recentlyLogout
      ensures View() == Dispatch.EndGrace(old(View()), p)
    {
      if p.opcode != CmsgSetActiveVoiceChannel {
        recentlyLogout := false;
      }
    }

    /** The admission switch of the world tick for one packet. */
    method DispatchPacket(p: Packet, env: Env)
      requires env.table == opcodeTable
      modifies this`log, this`socket, this`kicks, this`recentlyLogout
      ensures View() == Dispatch.Dispatch(old(View()), p, env)
    {
      match opcodeTable(p.opcode).status
      case LoggedIn =>
        if player.None? {
          if !recentlyLogout {
            LogUnexpectedOpcode(p, NotLoggedIn);
          }
        } else if player.value.inWorld {
          ExecuteCaught(p, env);
        }
      case LoggedInOrRecentlyLoggedOut =>
        if player.None? && !recentlyLogout {
          LogUnexpectedOpcode(p, NotLoggedInNorRecentlyLoggedOut);
        } else {
          ExecuteCaught(p, env);
        }
      case Transfer =>
        if player.None? {
          LogUnexpectedOpcode(p, NotLoggedIn);
        } else if player.value.inWorld {
          LogUnexpectedOpcode(p, StillInWorld);
        } else {
          ExecuteCaught(p, env);
        }
      case Authed =>
        if inQueue {
          LogUnexpectedOpcode(p, StillInQueue);
        } else {
          EndGrace(p);
          ExecuteCaught(p, env);
        }
      case Never =>
        LogUnexpectedOpcode(p, NotAllowed);
      case Unhandled =>
        LogUnexpectedOpcode(p, NotHandled);
      case UnknownStatus(_) =>
        LogUnexpectedOpcode(p, WrongStatus);
    }

    /**
     * QueuePacket: an immediate opcode's handler runs at once (its exception
     * reaches the caller); the others join the back of their queue.
     */
    method QueuePacket(p: Packet, handler: Packet -> HandlerOutcome) returns (raised: bool)
      modifies this`log, this`socket, this`recvQueue, this`recvQueueMap
      ensures Outcome(View(), raised) == Enqueue(old(View()), p, EnvFor(handler, false))
    {
      var processing := opcodeTable(p.opcode).processing;
      if processing == Immediate {
        raised := ExecuteOpcode(p, handler(p));
        return;
      }
      if processing == MapThread {
        recvQueueMap := recvQueueMap + [p];
      } else {
        recvQueue := recvQueue + [p];
      }
      raised := false;
    }

    /** Erases the facing and heartbeat packets from the map queue, keeping the others in order. */
    method DeleteMovementPackets()
      modifies this`recvQueueMap
      ensures recvQueueMap == WithoutMovement(old(recvQueueMap))
    {
      ghost var q0 := recvQueueMap;
      ghost var k := 0;
      var i := 0;
      while i < |recvQueueMap|
        invariant 0 <= i <= |recvQueueMap| && 0 <= k <= |q0|
        invariant recvQueueMap[..i] == WithoutMovement(q0[..k])
        invariant recvQueueMap[i..] == q0[k..]
        decreases |recvQueueMap| - i
      {
        MovementFilterStep(q0, recvQueueMap, i, k);
        if IsMovement(recvQueueMap[i].opcode) {
          recvQueueMap := recvQueueMap[..i] + recvQueueMap[i + 1..];
        } else {
          i := i + 1;
        }
        k := k + 1;
      }
      assert q0[..k] == q0;
    }

    /** The messager: the kicks posted by earlier ticks are carried out. */
    method ExecuteMessages()
      modifies this`log, this`kicks
      ensures View() == RunMessages(old(View()))
    {
      log := log + KickEvents(kicks);
      kicks := [];
    }

    /**
     * The world tick: messages, the swap of the generic queue, the drain of the
     * copy while the transport is open, then the lifecycle switch. The result
     * says whether the owner keeps the session.
     */
    method Update(now: int, handler: Packet -> HandlerOutcome, kickOnBadPacket: bool) returns (keep: bool)
      modifies this`recvQueue, this`kicks, this`log, this`logoutTime, this`socket, this`requestSocket, this`state, this`playerLogout,
               this`player, this`guidLow, this`recentlyLogout, this`kickTime, this`playerSave
      ensures Tick(View(), keep) == UpdateTick(old(View()), now, timeouts, EnvFor(handler, kickOnBadPacket))
    {
      var env := EnvFor(handler, kickOnBadPacket);
      ExecuteMessages();
      var copy := recvQueue;
      recvQueue := [];
      DrainCopy(copy, env);
      keep := UpdateState(now);
    }

    /** The loop of the world tick over its copy of the generic queue. */
    method DrainCopy(copy: seq<Packet>, env: Env)
      requires env.table == opcodeTable
      modifies this`log, this`socket, this`kicks, this`recentlyLogout
      ensures View() == Drain(old(View()), copy, env).session
    {
      var rest := copy;
      while socket.Some? && !socket.value.closed && rest != []
        invariant Drain(old(View()), copy, env) == Drain(View(), rest, env)
        decreases |rest|
      {
        var p := rest[0];
        assert Drain(View(), rest, env) == Drain(Dispatch.Dispatch(View(), p, env), rest[1..], env);
        rest := rest[1..];
        DispatchPacket(p, env);
      }
    }

    /** The lifecycle switch at the end of the world tick. */
    method UpdateState(now: int) returns (keep: bool)
      modifies this`log, this`logoutTime, this`socket, this`requestSocket, this`state, this`playerLogout,
               this`player, this`guidLow, this`recentlyLogout, this`kickTime, this`playerSave
      ensures Tick(View(), keep) == StateTick(old(View()), now, timeouts)
    {
      match state
      case Created =>
        UpdateCreated(now);
        keep := true;
      case CharSelection =>
        keep := UpdateCharSelection(now);
      case Ready =>
        keep := UpdateReady(now);
      case Offline =>
        keep := UpdateOffline(now);
    }

    method UpdateCreated(now: int)
      modifies this`log, this`logoutTime, this`socket, this`requestSocket, this`state, this`kickTime
      ensures View() == CreatedTick(old(View()), now)
    {
      if requestSocket.Some? {
        AdoptRequestedSocket(now);
      } else if inQueue {
        SendPacket(AuthQueued);
      } else {
        SendPacket(AuthOk);
      }
      SetInCharSelection(now);
    }

    method AdoptRequestedSocket(now: int)
      requires requestSocket.Some?
      modifies this`log, this`logoutTime, this`socket, this`requestSocket, this`state
      ensures View() == AdoptSocket(old(View()), now)
    {
      ghost var s := View();
      if state != Offline {
        SetOffline(now);
      }
      ghost var s0 := View();
      assert s0 == if IsOffline(s) then s else SessionSpec.SetOffline(s, now);
      socket := requestSocket;
      requestSocket := None;
      assert View() == s0.(socket := s.requestSocket, requestSocket := None);
      SendPacket(AuthOk);
    }

    method UpdateCharSelection(now: int) returns (keep: bool)
      modifies this`log, this`logoutTime, this`socket, this`requestSocket, this`state, this`playerLogout,
               this`player, this`guidLow, this`recentlyLogout, this`kickTime, this`playerSave
      ensures Tick(View(), keep) == CharSelectionTick(old(View()), now, timeouts)
    {
      if socket.None? || socket.value.closed {
        return false;
      }
      if ShouldLogOut(View(), now, timeouts) && !playerLoading {
        LogoutPlayer(now);
      }
      if kickTime != 0 && kickTime <= now {
        KickPlayer(true, false, now);
      }
      return true;
    }

    method UpdateReady(now: int) returns (keep: bool)
      modifies this`log, this`logoutTime, this`socket, this`requestSocket, this`state, this`playerLogout,
               this`player, this`guidLow, this`recentlyLogout, this`kickTime, this`playerSave
      ensures Tick(View(), keep) == ReadyTick(old(View()), now, timeouts)
    {
      if socket.Some? && socket.value.closed {
        if player.None? {
          return false;
        }
        SetOffline(now);
      } else if ShouldLogOut(View(), now, timeouts) && !playerLoading {
        LogoutPlayer(now);
      }
      return true;
    }

    method UpdateOffline(now: int) returns (keep: bool)
      modifies this`log, this`logoutTime, this`socket, this`requestSocket, this`state, this`playerLogout,
               this`player, this`guidLow, this`recentlyLogout, this`kickTime, this`playerSave
      ensures Tick(View(), keep) == OfflineTick(old(View()), now, timeouts)
    {
      if ShouldDisconnect(View(), now, timeouts) {
        LogoutPlayer(now);
        if requestSocket.None? && (socket.None? || socket.value.closed) {
          return false;
        }
      }
      return true;
    }

    /**
     * The map tick as written: the index grows while the copy shrinks, and
     * what is left of the copy afterwards is dropped.
     */
    method UpdateMap(handler: Packet -> HandlerOutcome, kickOnBadPacket: bool)
      modifies this`recvQueueMap, this`log, this`socket, this`kicks
      ensures View() == UpdateMapTick(old(View()), EnvFor(handler, kickOnBadPacket))
    {
      var env := EnvFor(handler, kickOnBadPacket);
      var copy := recvQueueMap;
      recvQueueMap := [];
      var i := 0;
      while socket.Some? && !socket.value.closed && i < |copy|
        invariant UpdateMapTick(old(View()), env) == MapDrain(View(), copy, i, env).session
        decreases |copy|
      {
        var p := copy[0];
        assert MapDrain(View(), copy, i, env) == MapDrain(MapDispatch(View(), p, env), copy[1..], i + 1, env);
        copy := copy[1..];
        if opcodeTable(p.opcode).status == LoggedIn {
          ExecuteCaught(p, env);
        }
        i := i + 1;
      }
    }

    method SendAuthWaitQue(position: uint32)
      modifies this`log
      ensures View() == Send(old(View()), AuthWaitResponse(position))
    {
      if position == 0 {
        SendPacket(AuthOk);
      } else {
        SendPacket(AuthQueued);
      }
    }

    method SendMotd(motd: string)
      modifies this`log
      ensures View() == Send(old(View()), Motd(MotdLines(motd)))
    {
      var lines := SplitMotd(motd);
      SendPacket(Motd(lines));
    }

    method SendTransferAborted(mapId: uint32, reason: uint8, arg: uint8)
      modifies this`log
      ensures View() == Send(old(View()), TransferAborted(TransferAbortedPayload(mapId, reason, arg)))
    {
      var data := LittleEndian32(mapId) + [reason];
      if reason == TransferAbortInsufExpanLvl || reason == TransferAbortDifficulty || reason == TransferAbortUniqueMessage {
        data := data + [arg];
      }
      SendPacket(TransferAborted(data));
    }

    method ResetTimeSync()
      modifies this`timeSyncNextCounter, this`pendingTimeSyncRequests
      ensures Sync() == SyncReset(old(Sync()))
    {
      timeSyncNextCounter := 0;
      pendingTimeSyncRequests := map[];
    }

    /** Sends the next request, records its send time, and schedules the one after. */
    method SendTimeSync(nowMs: uint32)
      modifies this`log, this`timeSyncNextCounter, this`pendingTimeSyncRequests, this`timeSyncTimer
      ensures View() == Send(old(View()), TimeSyncRequest(old(timeSyncNextCounter)))
      ensures Sync() == SyncSent(old(Sync()), nowMs)
    {
      SendPacket(TimeSyncRequest(timeSyncNextCounter));
      RecordTimeSync(nowMs);
    }

    /** SendTimeSync's bookkeeping once the request is out. */
    method RecordTimeSync(nowMs: uint32)
      modifies this`timeSyncNextCounter, this`pendingTimeSyncRequests, this`timeSyncTimer
      ensures Sync() == SyncSent(old(Sync()), nowMs)
    {
      pendingTimeSyncRequests := pendingTimeSyncRequests[timeSyncNextCounter := nowMs];
      timeSyncTimer := if timeSyncNextCounter == 0 then FirstSyncInterval else SyncInterval;
      timeSyncNextCounter := ((timeSyncNextCounter as int + 1) % 0x1_0000_0000) as uint32;
    }

    /** The server time of a movement with client time `clientTime`. */
    method SynchronizeMovement(clientTime: uint32, currentMs: uint32) returns (serverTime: uint32)
      ensures serverTime == SynchronizedTime(clientTime, timeSyncClockDelta, currentMs)
    {
      var movementTime := clientTime as int + timeSyncClockDelta;
      if timeSyncClockDelta == 0 || movementTime < 0 || movementTime > MaxUint32 {
        serverTime := currentMs;
      } else {
        serverTime := movementTime as uint32;
      }
    }

    /**
     * LoadAccountData: empties the slots the mask selects, then stores each
     * row of a selected, in-range type and logs each other row.
     */
    method LoadAccountData(rows: seq<AccountDataRow>, mask: bv32)
      requires Valid()
      modifies accountData, this`log
      ensures accountData[..] == LoadedAccountData(old(accountData[..]), rows, mask)
      ensures log == old(log) + IgnoredRows(rows, mask)
    {
      ResetAccountData(mask);
      var j := 0;
      while j < |rows|
        invariant 0 <= j <= |rows|
        invariant accountData[..] == ApplyRows(ResetSlots(old(accountData[..]), mask), rows[..j], mask)
        invariant log == old(log) + IgnoredRows(rows[..j], mask)
      {
        var row := rows[j];
        LoadRowStep(ResetSlots(old(accountData[..]), mask), rows, j, mask);
        ghost var before, logBefore := accountData[..], log;
        ghost var ev := RowDiagnostic(row, mask);
        SeqAssoc(old(log), IgnoredRows(rows[..j], mask), ev);
        if row.dataType as int >= NumAccountDataTypes {
          log := log + [AccountDataIgnored(row.dataType, true)];
        } else if !InMask(mask, row.dataType as nat) {
          log := log + [AccountDataIgnored(row.dataType, false)];
        } else {
          accountData[row.dataType as nat] := AccountData(AsTime(row.time), row.data);
        }
        assert accountData[..] == ApplyRow(before, row, mask);
        assert log == logBefore + ev;
        j := j + 1;
      }
      assert rows[..j] == rows;
    }

    /** The first loop of LoadAccountData: every slot the mask selects is emptied. */
    method ResetAccountData(mask: bv32)
      requires Valid()
      modifies accountData
      ensures accountData[..] == ResetSlots(old(accountData[..]), mask)
    {
      var i := 0;
      while i < NumAccountDataTypes
        invariant 0 <= i <= NumAccountDataTypes
        invariant forall k :: 0 <= k < NumAccountDataTypes ==>
          accountData[k] == if k < i && InMask(mask, k) then EmptyAccountData else old(accountData[k])
      {
        if InMask(mask, i) {
          accountData[i] := EmptyAccountData;
        }
        i := i + 1;
      }
    }

    method SetAccountData(dataType: nat, time: int, data: string) returns (write: AccountDataWrite)
      requires Valid() && dataType < NumAccountDataTypes
      modifies accountData
      ensures AccountDataUpdate(accountData[..], write) ==
        StoreAccountData(old(accountData[..]), guidLow, dataType, time, data)
    {
      if InMask(GlobalCacheMask, dataType) {
        write := AccountRow(dataType);
      } else {
        if guidLow == 0 {
          return NoWrite;
        }
        write := CharacterRow(guidLow, dataType);
      }
      accountData[dataType] := AccountData(time, data);
    }

    /** LoadTutorialsData on the query's rows of eight flags (none when the account has no row). */
    method LoadTutorialsData(rows: seq<seq<uint32>>)
      requires Valid()
      requires forall i :: 0 <= i < |rows| ==> |rows[i]| == NumTutorialFlags
      modifies tutorials, this`tutorialState
      ensures tutorials[..] == LoadedTutorials(rows) && tutorialState == LoadedTutorialState(rows)
    {
      var k := 0;
      while k < NumTutorialFlags
        invariant 0 <= k <= NumTutorialFlags
        invariant forall m :: 0 <= m < k ==> tutorials[m] == 0
      {
        tutorials[k] := 0;
        k := k + 1;
      }
      if rows == [] {
        tutorialState := TutorialNew;
        return;
      }
      var j := 0;
      while j < |rows|
        invariant 0 <= j <= |rows|
        invariant j > 0 ==> tutorials[..] == rows[j - 1]
      {
        k := 0;
        while k < NumTutorialFlags
          invariant 0 <= k <= NumTutorialFlags
          invariant forall m :: 0 <= m < k ==> tutorials[m] == rows[j][m]
        {
          tutorials[k] := rows[j][k];
          k := k + 1;
        }
        j := j + 1;
      }
      tutorialState := TutorialUnchanged;
    }

    /** Writes the flags as the state demands, after which they count as unchanged. */
    method SaveTutorialsData() returns (write: TutorialWrite)
      requires Valid()
      modifies this`tutorialState
      ensures write == TutorialSave(old(tutorialState), tutorials[..])
      ensures tutorialState == TutorialUnchanged
    {
      match tutorialState {
        case TutorialChanged =>
          write := UpdateTutorials(tutorials[..]);
        case TutorialNew =>
          write := InsertTutorials(tutorials[..]);
        case TutorialUnchanged =>
          write := NoTutorialWrite;
      }
      tutorialState := TutorialUnchanged;
    }
  }

  /** One pass of the erase loop: the packet under the cursor is either erased or stepped over. */
  lemma MovementFilterStep(q0: seq<Packet>, q: seq<Packet>, i: nat, k: nat)
    requires i < |q| && k <= |q0|
    requires q[..i] == WithoutMovement(q0[..k]) && q[i..] == q0[k..]
    ensures k < |q0| && q[i] == q0[k]
    ensures IsMovement(q[i].opcode) ==>
      var erased := q[..i] + q[i + 1..];
      erased[..i] == WithoutMovement(q0[..k + 1]) && erased[i..] == q0[k + 1..]
    ensures !IsMovement(q[i].opcode) ==>
      q[..i + 1] == WithoutMovement(q0[..k + 1]) && q[i + 1..] == q0[k + 1..]
  {
    var rest, rest0 := q[i..], q0[k..];
    assert rest[0] == q[i] && rest0[0] == q0[k];
    assert q[i + 1..] == rest[1..] && q0[k + 1..] == rest0[1..];
    WithoutMovementSnoc(q0, k);
    if IsMovement(q[i].opcode) {
      EraseAt(q, i);
    } else {
      KeepAt(q, i);
    }
  }

  lemma KeepAt<T>(q: seq<T>, i: nat)
    requires i < |q|
    ensures q[..i + 1] == q[..i] + [q[i]]
  {
  }

  lemma WithoutMovementSnoc(q0: seq<Packet>, k: nat)
    requires k < |q0|
    ensures WithoutMovement(q0[..k + 1]) == WithoutMovement(q0[..k]) + (if IsMovement(q0[k].opcode) then [] else [q0[k]])
  {
    assert q0[..k + 1] == q0[..k] + [q0[k]];
    WithoutMovementAppend(q0[..k], [q0[k]]);
    assert [q0[k]][1..] == [];
  }

  lemma EraseAt<T>(q: seq<T>, i: nat)
    requires i < |q|
    ensures (q[..i] + q[i + 1..])[..i] == q[..i]
    ensures (q[..i] + q[i + 1..])[i..] == q[i + 1..]
  {
  }

  /** One row of LoadAccountData's result loop, on the cache and on the diagnostics. */
  lemma LoadRowStep(cache: seq<AccountData>, rows: seq<AccountDataRow>, j: nat, mask: bv32)
    requires |cache| == NumAccountDataTypes && j < |rows|
    ensures ApplyRows(cache, rows[..j + 1], mask) == ApplyRow(ApplyRows(cache, rows[..j], mask), rows[j], mask)
    ensures IgnoredRows(rows[..j + 1], mask) == IgnoredRows(rows[..j], mask) + RowDiagnostic(rows[j], mask)
  {
    assert rows[..j + 1][..j] == rows[..j];
  }
}
