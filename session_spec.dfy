/**
 * The session's lifecycle as pure functions over a value snapshot of its
 * fields: sending, going offline and online, entering character selection,
 * the session-visible effects of logout and kick, and the state machine
 * evaluated once per world tick.
 */
module SessionSpec {
  import opened Protocol

  /** Inactivity deadline armed on entering character selection, in seconds. */
  const CharSelectionTimeout: int := 15 * 60
  /** A kick back-dates the logout request by this many seconds. */
  const KickBackdate: int := 20

  /**
   * Delays after a logout request at which a logout (ShouldLogOut) and a
   * disconnect of an offline session (ShouldDisconnect) become due.
   */
  datatype Timeouts = Timeouts(logoutDelay: nat, disconnectDelay: nat)

  /** Snapshot of the session fields this model tracks. */
  datatype Session = Session(
    recvQueue: seq<Packet>,
    recvQueueMap: seq<Packet>,
    player: Option<Player>,
    guidLow: nat,
    socket: Option<Socket>,
    requestSocket: Option<Socket>,
    state: SessionState,
    kickTime: int,
    logoutTime: int,
    inQueue: bool,
    playerLoading: bool,
    playerLogout: bool,
    recentlyLogout: bool,
    playerSave: bool,
    kicks: seq<nat>,      // messager: guids of players to kick on the next world tick
    log: seq<Event>)

  predicate SocketOpen(s: Session)
  {
    s.socket.Some? && !s.socket.value.closed
  }

  predicate IsOffline(s: Session)
  {
    s.state == Offline
  }

  predicate ShouldLogOut(s: Session, now: int, t: Timeouts)
  {
    s.logoutTime != 0 && now >= s.logoutTime + t.logoutDelay
  }

  predicate ShouldDisconnect(s: Session, now: int, t: Timeouts)
  {
    s.logoutTime != 0 && now >= s.logoutTime + t.disconnectDelay
  }

  /** Sending goes out only over a present, open transport; otherwise it is dropped. */
  function Send(s: Session, m: Outbound): (r: Session)
    ensures r.log == s.log + (if SocketOpen(s) then [Sent(m)] else [])
    ensures r.(log := s.log) == s
  {
    if SocketOpen(s) then s.(log := s.log + [Sent(m)]) else s
  }

  /**
   * Detaches the transport: a player gets a friend-offline notice and a logout
   * request stamped `now`; a transport still held is closed if open and
   * finalized; the state becomes Offline.
   */
  function SetOffline(s: Session, now: int): (r: Session)
    ensures r.state == Offline && r.socket.None?
    ensures r.player == s.player && r.requestSocket == s.requestSocket
    ensures r.logoutTime == if s.player.Some? then now else s.logoutTime
    ensures s.player.Some? ==> FriendOffline(s.player.value.guid) in r.log
    ensures s.socket.Some? ==> SocketFinalized(s.socket.value.id) in r.log
    ensures SocketOpen(s) ==> SocketClosed(s.socket.value.id) in r.log
    ensures r.recvQueue == s.recvQueue && r.recvQueueMap == s.recvQueueMap
    ensures r.kickTime == s.kickTime && r.inQueue == s.inQueue && r.kicks == s.kicks
  {
    ReleaseSocket(NotifyOffline(s, now)).(state := Offline)
  }

  /** With a player: friends are told it went offline and a logout request is stamped `now`. */
  function NotifyOffline(s: Session, now: int): (r: Session)
    ensures s.player.Some? ==> r.logoutTime == now && FriendOffline(s.player.value.guid) in r.log
    ensures s.player.None? ==> r == s
    ensures r.(log := s.log, logoutTime := s.logoutTime) == s && s.log <= r.log
  {
    if s.player.Some? then s.(log := s.log + [FriendOffline(s.player.value.guid)], logoutTime := now)
    else s
  }

  /** A transport still held is closed if open, finalized, and let go. */
  function ReleaseSocket(s: Session): (r: Session)
    ensures r.socket.None?
    ensures s.socket.Some? ==> SocketFinalized(s.socket.value.id) in r.log
    ensures SocketOpen(s) ==> SocketClosed(s.socket.value.id) in r.log
    ensures s.socket.None? ==> r == s
    ensures r.(log := s.log, socket := s.socket) == s && s.log <= r.log
  {
    if s.socket.Some? then
      var id := s.socket.value.id;
      var closed := if s.socket.value.closed then s else s.(log := s.log + [SocketClosed(id)]);
      closed.(log := closed.log + [SocketFinalized(id)], socket := None)
    else s
  }

  /** Goes Ready, with the inactivity deadline cleared, only with a player and an open transport. */
  function SetOnline(s: Session): (r: Session)
    ensures s.player.Some? && SocketOpen(s) ==> r.state == Ready && r.kickTime == 0
    ensures !(s.player.Some? && SocketOpen(s)) ==> r == s
    ensures r.(state := s.state, kickTime := s.kickTime) == s
  {
    if s.player.Some? && SocketOpen(s) then s.(state := Ready, kickTime := 0) else s
  }

  function SetInCharSelection(s: Session, now: int): (r: Session)
    ensures r.state == CharSelection && r.kickTime == now + CharSelectionTimeout
    ensures r.(state := s.state, kickTime := s.kickTime) == s
  {
    s.(state := CharSelection, kickTime := now + CharSelectionTimeout)
  }

  /** LogoutRequest: stamps (or with 0 clears) the pending logout request. */
  function LogoutRequest(s: Session, time: int): (r: Session)
    ensures r.logoutTime == time && r.(logoutTime := s.logoutTime) == s
  {
    s.(logoutTime := time)
  }

  /**
   * Session-visible effects of LogoutPlayer. An attached player is torn down
   * (saved or not as `playerSave` says), detached together with its guid,
   * and the client is told the logout completed; then, player or not, the
   * session re-enters character selection with the recent-logout grace flag
   * set and no logout request pending.
   */
  function Logout(s: Session, now: int): (r: Session)
    ensures r.player.None? && !r.playerLogout && r.recentlyLogout
    ensures r.state == CharSelection && r.kickTime == now + CharSelectionTimeout && r.logoutTime == 0
    ensures r.guidLow == if s.player.Some? then 0 else s.guidLow
    ensures s.player.Some? ==> PlayerRemoved(s.player.value.guid, s.playerSave) in r.log
    ensures s.player.Some? && SocketOpen(s) ==> r.log[|r.log| - 1] == Sent(LogoutComplete)
    ensures s.player.None? ==>
      r == s.(playerLogout := false, recentlyLogout := true, state := CharSelection,
              kickTime := now + CharSelectionTimeout, logoutTime := 0)
    ensures r.socket == s.socket && r.requestSocket == s.requestSocket
    ensures r.recvQueue == s.recvQueue && r.recvQueueMap == s.recvQueueMap
    ensures r.inQueue == s.inQueue && r.playerLoading == s.playerLoading && r.playerSave == s.playerSave
    ensures r.kicks == s.kicks && s.log <= r.log
  {
    var s2 := DetachPlayer(s.(playerLogout := true));
    var s3 := s2.(playerLogout := false, recentlyLogout := true);
    LogoutRequest(SetInCharSelection(s3, now), 0)
  }

  /** The part of LogoutPlayer that only runs with a player attached. */
  function DetachPlayer(s: Session): (r: Session)
    ensures r.player.None?
    ensures s.player.None? ==> r == s
    ensures s.player.Some? ==> PlayerRemoved(s.player.value.guid, s.playerSave) in r.log
    ensures s.player.Some? && SocketOpen(s) ==> r.log[|r.log| - 1] == Sent(LogoutComplete)
    ensures s.player.Some? ==> r.(log := s.log, player := s.player, guidLow := s.guidLow) == s && r.guidLow == 0
    ensures s.log <= r.log
  {
    if s.player.Some? then
      var removed := s.(log := s.log + [PlayerRemoved(s.player.value.guid, s.playerSave)],
                        player := None, guidLow := 0);
      Send(removed, LogoutComplete)
    else s
  }

  /**
   * KickPlayer: records whether to save; in place it logs out at once,
   * otherwise it back-dates a logout request by KickBackdate seconds, which
   * is due at once whenever the logout delay is at most that (see KickDueNow).
   */
  function Kick(s: Session, save: bool, inPlace: bool, now: int): (r: Session)
    ensures r.playerSave == save
    ensures inPlace ==> r == Logout(s.(playerSave := save), now)
    ensures !inPlace ==> r == s.(playerSave := save, logoutTime := now - KickBackdate)
  {
    var s1 := s.(playerSave := save);
    if inPlace then Logout(s1, now) else LogoutRequest(s1, now - KickBackdate)
  }

  /**
   * A kick that is not in place makes the logout due at once, provided the
   * logout delay is at most the back-dating and the back-dated time is not
   * the 0 that means "no request".
   */
  lemma KickDueNow(s: Session, save: bool, now: int, t: Timeouts)
    requires t.logoutDelay <= KickBackdate && now != KickBackdate
    ensures ShouldLogOut(Kick(s, save, false, now), now, t)
  {
  }

  /**
   * A kick followed by the lifecycle tick at the same time logs the player
   * out, saved as the kick asked, and keeps the session in character
   * selection: in CHAR_SELECTION and READY with an open transport and no
   * player being loaded.
   */
  lemma KickThenTickLogsOut(s: Session, save: bool, now: int, t: Timeouts)
    requires t.logoutDelay <= KickBackdate && now != KickBackdate
    requires s.state == CharSelection || s.state == Ready
    requires SocketOpen(s) && !s.playerLoading
    ensures var r := StateTick(Kick(s, save, false, now), now, t);
      && r.keep
      && r.session == Logout(Kick(s, save, false, now), now)
      && r.session.player.None? && r.session.state == CharSelection
      && (s.player.Some? ==> PlayerRemoved(s.player.value.guid, save) in r.session.log)
  {
    var k := Kick(s, save, false, now);
    KickDueNow(s, save, now, t);
    var l := Logout(k, now);
    assert l.kickTime == now + CharSelectionTimeout;
    if s.state == CharSelection {
      assert CharSelectionTick(k, now, t) == Tick(l, true);
    } else {
      assert ReadyTick(k, now, t) == Tick(l, true);
    }
  }

  /**
   * RequestNewSocket: refused while another transport is pending; otherwise
   * the transport becomes the pending one and the session starts over in CREATED.
   */
  function AcceptSocket(s: Session, sock: Socket): (r: Option<Session>)
    ensures r.None? <==> s.requestSocket.Some?
    ensures r.Some? ==> r.value.requestSocket == Some(sock) && r.value.state == Created
    ensures r.Some? ==> r.value.(requestSocket := s.requestSocket, state := s.state) == s
  {
    if s.requestSocket.Some? then None else Some(s.(requestSocket := Some(sock), state := Created))
  }

  /**
   * A second LogoutPlayer changes nothing but the character-selection
   * deadline: logging out twice is logging out once at the later time.
   */
  lemma LogoutIdempotent(s: Session, now1: int, now2: int)
    ensures Logout(Logout(s, now1), now2) == Logout(s, now2)
  {
  }

  /** Result of a world tick: the new session and whether the owner keeps it. */
  datatype Tick = Tick(session: Session, keep: bool)

  /**
   * The lifecycle switch that Update evaluates after draining the generic queue.
   */
  function StateTick(s: Session, now: int, t: Timeouts): (r: Tick)
    // "remove this session" is reported in exactly three situations
    ensures !r.keep <==>
      || (s.state == CharSelection && !SocketOpen(s))
      || (s.state == Ready && s.socket.Some? && s.socket.value.closed && s.player.None?)
      || (s.state == Offline && ShouldDisconnect(s, now, t) && s.requestSocket.None? && !SocketOpen(s))
    // CREATED always moves on to character selection and adopts a pending transport
    ensures s.state == Created ==>
      && r.session.state == CharSelection
      && r.session.kickTime == now + CharSelectionTimeout
      && r.session.requestSocket.None?
      && r.session.socket == (if s.requestSocket.Some? then s.requestSocket else s.socket)
    ensures s.state == Created && s.requestSocket.Some? && s.socket.Some? ==>
      SocketFinalized(s.socket.value.id) in r.session.log
    // a closed transport in READY with a player goes OFFLINE, keeping the player
    ensures s.state == Ready && s.socket.Some? && s.socket.value.closed && s.player.Some? ==>
      && r.session.state == Offline && r.session.socket.None?
      && r.session.player == s.player
      && FriendOffline(s.player.value.guid) in r.session.log
      && SocketFinalized(s.socket.value.id) in r.session.log
    // a due disconnect of an OFFLINE session logs the player out
    ensures s.state == Offline && ShouldDisconnect(s, now, t) ==>
      r.session.player.None? && r.session.state == CharSelection
    // the tick never touches the packet queues
    ensures r.session.recvQueue == s.recvQueue && r.session.recvQueueMap == s.recvQueueMap
  {
    match s.state
    case Created => Tick(CreatedTick(s, now), true)
    case CharSelection => CharSelectionTick(s, now, t)
    case Ready => ReadyTick(s, now, t)
    case Offline => OfflineTick(s, now, t)
  }

  /** CREATED: adopt a pending transport (dropping the current one) or answer on the current one, then go to character selection. */
  function CreatedTick(s: Session, now: int): Session
  {
    var s1 :=
      if s.requestSocket.Some? then AdoptSocket(s, now)
      else Send(s, if s.inQueue then AuthQueued else AuthOk);
    SetInCharSelection(s1, now)
  }

  /** The pending transport replaces the current one, which is dropped as by SetOffline, and is greeted. */
  function AdoptSocket(s: Session, now: int): Session
    requires s.requestSocket.Some?
  {
    var s0 := if IsOffline(s) then s else SetOffline(s, now);
    Send(s0.(socket := s.requestSocket, requestSocket := None), AuthOk)
  }

  /** CHAR_SELECTION: removed without an open transport; otherwise a due logout, then a due kick. */
  function CharSelectionTick(s: Session, now: int, t: Timeouts): Tick
  {
    if !SocketOpen(s) then Tick(s, false)
    else
      var s1 := if ShouldLogOut(s, now, t) && !s.playerLoading then Logout(s, now) else s;
      var s2 := if s1.kickTime != 0 && s1.kickTime <= now then Kick(s1, true, false, now) else s1;
      Tick(s2, true)
  }

  /** READY: a closed transport removes a session without player and takes one with a player offline. */
  function ReadyTick(s: Session, now: int, t: Timeouts): Tick
  {
    if s.socket.Some? && s.socket.value.closed then
      if s.player.None? then Tick(s, false) else Tick(SetOffline(s, now), true)
    else if ShouldLogOut(s, now, t) && !s.playerLoading then Tick(Logout(s, now), true)
    else Tick(s, true)
  }

  /** OFFLINE: a due disconnect logs out, and removes the session unless a transport is pending or open. */
  function OfflineTick(s: Session, now: int, t: Timeouts): Tick
  {
    if ShouldDisconnect(s, now, t) then
      var s1 := Logout(s, now);
      Tick(s1, !(s1.requestSocket.None? && !SocketOpen(s1)))
    else Tick(s, true)
  }

  /** The messager's pending kicks, run at the start of a world tick. */
  function RunMessages(s: Session): (r: Session)
    ensures r.kicks == [] && |r.log| == |s.log| + |s.kicks|
    ensures forall i :: 0 <= i < |s.kicks| ==> r.log[|s.log| + i] == KickRequested(s.kicks[i])
    ensures r.(log := s.log, kicks := s.kicks) == s
  {
    s.(log := s.log + KickEvents(s.kicks), kicks := [])
  }

  function KickEvents(guids: seq<nat>): (e: seq<Event>)
    ensures |e| == |guids|
    ensures forall i :: 0 <= i < |guids| ==> e[i] == KickRequested(guids[i])
  {
    if guids == [] then [] else [KickRequested(guids[0])] + KickEvents(guids[1..])
  }

  /**
   * Reconnection: a transport accepted by RequestNewSocket is adopted on the
   * next world tick, which keeps the session, finalizes the transport it
   * replaces, and answers on the new transport with a successful authentication.
   */
  lemma AcceptedSocketAdopted(s: Session, sock: Socket, now: int, t: Timeouts)
    requires s.requestSocket.None?
    ensures var r := StateTick(AcceptSocket(s, sock).value, now, t);
      && r.keep
      && r.session.socket == Some(sock) && r.session.requestSocket.None?
      && r.session.state == CharSelection
      && (s.socket.Some? ==> SocketFinalized(s.socket.value.id) in r.session.log)
      && (!sock.closed ==> Sent(AuthOk) in r.session.log)
  {
    var a := AcceptSocket(s, sock).value;
    assert StateTick(a, now, t) == Tick(SetInCharSelection(AdoptSocket(a, now), now), true);
  }
}
