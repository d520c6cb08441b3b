/**
 * Packet dispatch: the per-packet admission switch of the world tick, the
 * map-tick dispatch, the two queue drains, the filter that removes movement
 * packets from the map queue, and what they guarantee.
 */
module Dispatch {
  import opened Protocol
  import opened SessionSpec
  import opened Filters

  /**
   * What a dispatch needs besides the session: the opcode table, the
   * behaviour of the opaque handlers, and the kick-on-bad-packet setting.
   */
  datatype Env = Env(
    table: Opcode -> OpcodeHandler,
    handler: Packet -> HandlerOutcome,
    kickOnBadPacket: bool)

  function StatusOf(env: Env, p: Packet): SessionStatus
  {
    env.table(p.opcode).status
  }

  /** The admission gate of each status: when the world tick lets a handler run. */
  predicate Gate(status: SessionStatus, s: Session)
  {
    match status
    case LoggedIn => s.player.Some? && s.player.value.inWorld
    case LoggedInOrRecentlyLoggedOut => s.player.Some? || s.recentlyLogout
    case Transfer => s.player.Some? && !s.player.value.inWorld
    case Authed => !s.inQueue
    case Never => false
    case Unhandled => false
    case UnknownStatus(_) => false
  }

  /**
   * What a dispatch may change: it appends to the event log and to the
   * messager's kicks, may close (never detach or replace) the transport, and
   * may clear (never set) the recent-logout grace flag. Everything else stays.
   */
  predicate DispatchFrame(s: Session, r: Session)
  {
    && r.recvQueue == s.recvQueue && r.recvQueueMap == s.recvQueueMap
    && r.player == s.player && r.guidLow == s.guidLow
    && r.requestSocket == s.requestSocket && r.state == s.state
    && r.kickTime == s.kickTime && r.logoutTime == s.logoutTime
    && r.inQueue == s.inQueue && r.playerLoading == s.playerLoading
    && r.playerLogout == s.playerLogout && r.playerSave == s.playerSave
    && (r.socket.Some? <==> s.socket.Some?)
    && (s.socket.Some? ==> r.socket.value.id == s.socket.value.id)
    && (!SocketOpen(s) ==> r.socket == s.socket)
    && s.log <= r.log && s.kicks <= r.kicks
    && (r.recentlyLogout ==> s.recentlyLogout)
  }

  lemma DispatchFrameTransitive(a: Session, b: Session, c: Session)
    requires DispatchFrame(a, b) && DispatchFrame(b, c)
    ensures DispatchFrame(a, c)
  {
  }

  /** The handler call: recorded as run; it may close the transport. */
  function Invoke(s: Session, p: Packet, o: HandlerOutcome): (r: Session)
    ensures r.log == s.log + [Ran(p.opcode)]
    ensures !o.closesSocket ==> r.socket == s.socket
    ensures DispatchFrame(s, r) && r.recentlyLogout == s.recentlyLogout && r.kicks == s.kicks
  {
    s.(log := s.log + [Ran(p.opcode)],
       socket := if o.closesSocket && s.socket.Some? then Some(s.socket.value.(closed := true)) else s.socket)
  }

  /** How the bad-packet path reacts: nothing, a kick of a guid, or a null dereference. */
  datatype KickDecision = NoKick | ScheduleKick(guid: nat) | NullDereference

  /** ProcessByteBufferException as written: with kicking configured it reads the player's guid unconditionally. */
  function KickDecisionAsWritten(kickOnBadPacket: bool, player: Option<Player>): KickDecision
  {
    if !kickOnBadPacket then NoKick
    else if player.None? then NullDereference
    else ScheduleKick(player.value.guid)
  }

  /** The same decision with the missing player check added: the kick needs a player to name. */
  function KickDecisionFor(kickOnBadPacket: bool, player: Option<Player>): (r: KickDecision)
    ensures !r.NullDereference?
    ensures r.ScheduleKick? <==> kickOnBadPacket && player.Some?
    ensures r.ScheduleKick? ==> r.guid == player.value.guid
    ensures KickDecisionAsWritten(kickOnBadPacket, player) != NullDereference ==>
      r == KickDecisionAsWritten(kickOnBadPacket, player)
  {
    if kickOnBadPacket && player.Some? then ScheduleKick(player.value.guid) else NoKick
  }

  /**
   * The null dereference is reachable: an AUTHED packet is admitted before any
   * player is attached, and if its handler raises with kicking configured, the
   * code as written reads the guid of the missing player.
   */
  lemma FaultWithoutPlayerDereferencesNull(s: Session, p: Packet, env: Env)
    requires StatusOf(env, p) == Authed && !s.inQueue && s.player.None?
    requires env.kickOnBadPacket && env.handler(p).faulted
    ensures Gate(StatusOf(env, p), s)
    ensures var o := RunHandler(EndGrace(s, p), p, env.handler(p));
      && o.raised
      && KickDecisionAsWritten(env.kickOnBadPacket, o.session.player) == NullDereference
      && KickDecisionFor(env.kickOnBadPacket, o.session.player) == NoKick
  {
  }

  /**
   * A ByteBufferException raised by a handler is caught per packet: logged,
   * and with kicking configured the player's kick is posted to the messager.
   */
  function OnByteBufferFault(s: Session, p: Packet, kickOnBadPacket: bool): (r: Session)
    ensures r.log == s.log + [BadPacket(p.opcode)]
    ensures r.kicks == s.kicks + (if kickOnBadPacket && s.player.Some? then [s.player.value.guid] else [])
    ensures r.(log := s.log, kicks := s.kicks) == s
  {
    var s1 := s.(log := s.log + [BadPacket(p.opcode)]);
    match KickDecisionFor(kickOnBadPacket, s.player)
    case ScheduleKick(guid) => s1.(kicks := s1.kicks + [guid])
    case _ => s1
  }

  /** What a handler call leaves behind: the session, and whether a ByteBufferException escaped. */
  datatype Outcome = Outcome(session: Session, raised: bool)

  /**
   * ExecuteOpcode: run the handler; if it raises, the exception escapes to
   * the caller, otherwise unread payload is reported.
   */
  function RunHandler(s: Session, p: Packet, o: HandlerOutcome): (r: Outcome)
    ensures r.raised == o.faulted
    ensures |r.session.log| > |s.log| && r.session.log[|s.log|] == Ran(p.opcode)
    ensures r.session.log == s.log + [Ran(p.opcode)] + r.session.log[|s.log| + 1..]
    ensures r.session.log[|s.log| + 1..] == if !o.faulted && p.rpos + o.consumed < p.wpos then [UnprocessedTail(p.opcode)] else []
    ensures r.session.(log := s.log) == Invoke(s, p, o).(log := s.log)
  {
    var s1 := Invoke(s, p, o);
    if o.faulted then Outcome(s1, true)
    else if p.rpos + o.consumed < p.wpos then Outcome(s1.(log := s1.log + [UnprocessedTail(p.opcode)]), false)
    else Outcome(s1, false)
  }

  /** ExecuteOpcode inside the world or map tick's try block: a raised exception goes to the bad-packet path. */
  function Execute(s: Session, p: Packet, env: Env): (r: Session)
    ensures DispatchFrame(s, r) && r.recentlyLogout == s.recentlyLogout
    ensures !env.handler(p).closesSocket ==> r.socket == s.socket
    ensures |r.log| > |s.log| && r.log[|s.log|] == Ran(p.opcode)
    ensures RanOpcodes(r.log) == RanOpcodes(s.log) + [p.opcode]
  {
    var o := RunHandler(s, p, env.handler(p));
    var r := if o.raised then OnByteBufferFault(o.session, p, env.kickOnBadPacket) else o.session;
    assert r.log == s.log + [Ran(p.opcode)] + r.log[|s.log| + 1..];
    RanOpcodesAppend(s.log + [Ran(p.opcode)], r.log[|s.log| + 1..]);
    RanOpcodesAppend(s.log, [Ran(p.opcode)]);
    r
  }

  /** A refused packet leaves only a diagnostic behind. */
  function Reject(s: Session, p: Packet, why: Rejection): (r: Session)
    ensures r.log == s.log + [Rejected(p.opcode, why)]
    ensures r.(log := s.log) == s
    ensures RanOpcodes(r.log) == RanOpcodes(s.log)
  {
    RanOpcodesAppend(s.log, [Rejected(p.opcode, why)]);
    s.(log := s.log + [Rejected(p.opcode, why)])
  }

  /**
   * QueuePacket: an immediate opcode runs its handler at once and leaves both
   * queues alone; a map-thread opcode joins the back of the map queue; any
   * other joins the back of the generic queue. Queuing raises nothing.
   */
  function Enqueue(s: Session, p: Packet, env: Env): (r: Outcome)
    ensures RouteFor(env.table(p.opcode).processing) == RunNow ==>
      && r.session.recvQueue == s.recvQueue && r.session.recvQueueMap == s.recvQueueMap
      && r.raised == env.handler(p).faulted
      && RanOpcodes(r.session.log) == RanOpcodes(s.log) + [p.opcode]
    ensures RouteFor(env.table(p.opcode).processing) == ToMapQueue ==>
      r == Outcome(s.(recvQueueMap := s.recvQueueMap + [p]), false)
    ensures RouteFor(env.table(p.opcode).processing) == ToGenericQueue ==>
      r == Outcome(s.(recvQueue := s.recvQueue + [p]), false)
  {
    match RouteFor(env.table(p.opcode).processing)
    case RunNow =>
      var r := RunHandler(s, p, env.handler(p));
      RanOpcodesAppend(s.log + [Ran(p.opcode)], r.session.log[|s.log| + 1..]);
      RanOpcodesAppend(s.log, [Ran(p.opcode)]);
      r
    case ToMapQueue => Outcome(s.(recvQueueMap := s.recvQueueMap + [p]), false)
    case ToGenericQueue => Outcome(s.(recvQueue := s.recvQueue + [p]), false)
  }

  /**
   * An AUTHED packet that passes ends the recent-logout grace period, except
   * the voice-channel opcode, which may legitimately arrive late.
   */
  function EndGrace(s: Session, p: Packet): (r: Session)
    ensures r.recentlyLogout == (s.recentlyLogout && p.opcode == CmsgSetActiveVoiceChannel)
    ensures r.(recentlyLogout := s.recentlyLogout) == s
  {
    if p.opcode != CmsgSetActiveVoiceChannel then s.(recentlyLogout := false) else s
  }

  /** The admission switch the world tick applies to one packet of the generic queue. */
  function Dispatch(s: Session, p: Packet, env: Env): (r: Session)
    ensures DispatchFrame(s, r)
    ensures !env.handler(p).closesSocket ==> r.socket == s.socket
    ensures r.recentlyLogout ==
      if StatusOf(env, p) == Authed && !s.inQueue && p.opcode != CmsgSetActiveVoiceChannel then false
      else s.recentlyLogout
  {
    match StatusOf(env, p)
    case LoggedIn =>
      if s.player.None? then
        // packets delayed by lag after a recent logout are dropped silently
        if s.recentlyLogout then s else Reject(s, p, NotLoggedIn)
      else if s.player.value.inWorld then Execute(s, p, env)
      else s
    case LoggedInOrRecentlyLoggedOut =>
      if s.player.None? && !s.recentlyLogout then Reject(s, p, NotLoggedInNorRecentlyLoggedOut)
      else Execute(s, p, env)
    case Transfer =>
      if s.player.None? then Reject(s, p, NotLoggedIn)
      else if s.player.value.inWorld then Reject(s, p, StillInWorld)
      else Execute(s, p, env)
    case Authed =>
      if s.inQueue then Reject(s, p, StillInQueue)
      else Execute(EndGrace(s, p), p, env)
    case Never => Reject(s, p, NotAllowed)
    case Unhandled => Reject(s, p, NotHandled)
    case UnknownStatus(_) => Reject(s, p, WrongStatus)
  }

  /** A handler runs for a packet exactly when its status's gate holds. */
  lemma DispatchRunsIffGate(s: Session, p: Packet, env: Env)
    ensures RanOpcodes(Dispatch(s, p, env).log) ==
      RanOpcodes(s.log) + (if Gate(StatusOf(env, p), s) then [p.opcode] else [])
  {
    match StatusOf(env, p)
    case Authed =>
      if !s.inQueue {
        assert Dispatch(s, p, env) == Execute(EndGrace(s, p), p, env);
      }
    case _ =>
  }

  /** Outcome of a drain: the session afterwards and the packets dropped undispatched. */
  datatype DrainResult = DrainResult(session: Session, discarded: seq<Packet>)

  predicate IsSuffix(d: seq<Packet>, q: seq<Packet>)
  {
    |d| <= |q| && d == q[|q| - |d|..]
  }

  lemma SuffixOfTail(d: seq<Packet>, q: seq<Packet>)
    requires q != [] && IsSuffix(d, q[1..])
    ensures IsSuffix(d, q)
  {
    assert q[1..][|q| - 1 - |d|..] == q[|q| - |d|..];
  }

  /**
   * The world tick's loop over its copy of the generic queue: packets are
   * dispatched front to back while the transport is present and open; once it
   * is not, the rest of the copy is dropped.
   */
  function Drain(s: Session, q: seq<Packet>, env: Env): (r: DrainResult)
    ensures DispatchFrame(s, r.session)
    ensures IsSuffix(r.discarded, q)
    ensures r.discarded != [] ==> !SocketOpen(r.session)
    decreases |q|
  {
    if q == [] || !SocketOpen(s) then DrainResult(s, q)
    else
      var s1 := Dispatch(s, q[0], env);
      var r := Drain(s1, q[1..], env);
      DispatchFrameTransitive(s, s1, r.session);
      SuffixOfTail(r.discarded, q);
      r
  }

  /** Without a handler that closes the transport, an open session dispatches every packet. */
  lemma {:induction false} DrainDispatchesAll(s: Session, q: seq<Packet>, env: Env)
    requires SocketOpen(s)
    requires forall p :: p in q ==> !env.handler(p).closesSocket
    ensures Drain(s, q, env).discarded == []
    ensures Drain(s, q, env).session.socket == s.socket
    decreases |q|
  {
    if q != [] {
      assert q[0] in q;
      assert forall p :: p in q[1..] ==> p in q;
      DrainDispatchesAll(Dispatch(s, q[0], env), q[1..], env);
    }
  }

  /** A session whose transport is absent or closed dispatches nothing and drops the whole copy. */
  lemma DrainClosedDropsAll(s: Session, q: seq<Packet>, env: Env)
    requires !SocketOpen(s)
    ensures Drain(s, q, env) == DrainResult(s, q)
  {
  }

  /**
   * Admission safety over a whole drain: every handler that ran passed its
   * gate as it stood when the drain began (the grace flag only ever clears,
   * and the player and queue flag never change during a drain).
   */
  lemma {:induction false} DrainRunsOnlyAdmitted(s: Session, q: seq<Packet>, env: Env)
    ensures var ran := RanOpcodes(Drain(s, q, env).session.log);
      && RanOpcodes(s.log) <= ran
      && forall i :: |RanOpcodes(s.log)| <= i < |ran| ==> Gate(env.table(ran[i]).status, s)
    decreases |q|
  {
    if q != [] && SocketOpen(s) {
      var s1 := Dispatch(s, q[0], env);
      assert Drain(s, q, env) == Drain(s1, q[1..], env);
      DispatchRunsIffGate(s, q[0], env);
      DrainRunsOnlyAdmitted(s1, q[1..], env);
      AdmittedPrefix(s, s1, RanOpcodes(s.log), RanOpcodes(s1.log),
                     RanOpcodes(Drain(s1, q[1..], env).session.log), q[0], env);
    }
  }

  /** A dispatch in front of a run of admitted handlers: the run stays admitted by the earlier state. */
  lemma AdmittedPrefix(s: Session, s1: Session, before: seq<Opcode>, mid: seq<Opcode>, ran: seq<Opcode>,
                       p: Packet, env: Env)
    requires DispatchFrame(s, s1)
    requires mid == before + (if Gate(StatusOf(env, p), s) then [p.opcode] else [])
    requires mid <= ran
    requires forall k :: |mid| <= k < |ran| ==> Gate(env.table(ran[k]).status, s1)
    ensures before <= ran
    ensures forall k :: |before| <= k < |ran| ==> Gate(env.table(ran[k]).status, s)
  {
    forall k | |before| <= k < |ran|
      ensures Gate(env.table(ran[k]).status, s)
    {
      if k < |mid| {
        assert ran[k] == mid[k] == p.opcode;
      } else {
        GateOnlyWeakens(env.table(ran[k]).status, s, s1);
      }
    }
  }

  /** A gate that holds after a dispatch already held before it. */
  lemma GateOnlyWeakens(status: SessionStatus, s: Session, s1: Session)
    requires DispatchFrame(s, s1)
    requires Gate(status, s1)
    ensures Gate(status, s)
  {
  }

  /** A gate that holds whatever the grace flag says. */
  predicate FirmGate(status: SessionStatus, s: Session)
  {
    Gate(status, s.(recentlyLogout := false))
  }

  lemma ConcatStep<T>(before: seq<T>, mid: seq<T>, step: seq<T>, tail: seq<T>, after: seq<T>)
    requires mid == before + step && after == mid + tail
    ensures after == before + (step + tail)
  {
  }

  /** Firm admission depends only on what a dispatch never changes. */
  lemma FirmGateKept(status: SessionStatus, s: Session, s1: Session)
    requires DispatchFrame(s, s1)
    ensures FirmGate(status, s1) == FirmGate(status, s)
  {
  }

  /**
   * First in, first out: when every packet is firmly admitted and none closes
   * the transport, the handlers run for exactly the drained packets, in queue order.
   */
  lemma {:induction false} DrainRunsInQueueOrder(s: Session, q: seq<Packet>, env: Env)
    requires SocketOpen(s)
    requires forall i :: 0 <= i < |q| ==> FirmGate(StatusOf(env, q[i]), s) && !env.handler(q[i]).closesSocket
    ensures RanOpcodes(Drain(s, q, env).session.log) == RanOpcodes(s.log) + Opcodes(q)
    decreases |q|
  {
    if q != [] {
      var s1 := Dispatch(s, q[0], env);
      assert Drain(s, q, env) == Drain(s1, q[1..], env);
      assert Gate(StatusOf(env, q[0]), s) by {
        assert FirmGate(StatusOf(env, q[0]), s);
      }
      DispatchRunsIffGate(s, q[0], env);
      assert RanOpcodes(s1.log) == RanOpcodes(s.log) + [q[0].opcode];
      forall i | 0 <= i < |q[1..]|
        ensures FirmGate(StatusOf(env, q[1..][i]), s1) && !env.handler(q[1..][i]).closesSocket
      {
        assert q[1..][i] == q[i + 1];
        FirmGateKept(StatusOf(env, q[i + 1]), s, s1);
      }
      DrainRunsInQueueOrder(s1, q[1..], env);
      ConcatStep(RanOpcodes(s.log), RanOpcodes(s1.log), [q[0].opcode],
                 Opcodes(q[1..]), RanOpcodes(Drain(s1, q[1..], env).session.log));
      assert Opcodes(q) == [q[0].opcode] + Opcodes(q[1..]);
    }
  }

  /** The map tick runs only LOGGEDIN packets; the others are skipped without a trace. */
  function MapDispatch(s: Session, p: Packet, env: Env): (r: Session)
    ensures DispatchFrame(s, r) && r.recentlyLogout == s.recentlyLogout
    ensures !env.handler(p).closesSocket ==> r.socket == s.socket
    ensures RanOpcodes(r.log) ==
      RanOpcodes(s.log) + (if StatusOf(env, p) == LoggedIn then [p.opcode] else [])
  {
    if StatusOf(env, p) == LoggedIn then Execute(s, p, env) else s
  }

  /**
   * The map tick's loop as written: an index `i` that grows is compared with
   * the size of a copy that shrinks by one on every step, so the loop stops
   * half-way; what is left in the copy is dropped.
   */
  function MapDrain(s: Session, copy: seq<Packet>, i: nat, env: Env): (r: DrainResult)
    ensures DispatchFrame(s, r.session) && r.session.recentlyLogout == s.recentlyLogout
    ensures IsSuffix(r.discarded, copy)
    decreases |copy|
  {
    if SocketOpen(s) && i < |copy| then
      var s1 := MapDispatch(s, copy[0], env);
      var r := MapDrain(s1, copy[1..], i + 1, env);
      DispatchFrameTransitive(s, s1, r.session);
      SuffixOfTail(r.discarded, copy);
      r
    else DrainResult(s, copy)
  }

  /** How many packets the as-written map loop takes from a copy of `n` when its index starts at `i`: ceil((n - i) / 2). */
  function HalfTaken(n: int, i: int): int
  {
    (n - i + 1) / 2
  }

  lemma HalfTakenStep(n: int, i: int)
    requires i < n
    ensures HalfTaken(n, i) == HalfTaken(n - 1, i + 1) + 1
  {
  }

  /**
   * The as-written map loop never dispatches more than the first ceil(n/2)
   * packets of a queue of n, and with the transport left open it dispatches
   * exactly that many.
   */
  lemma {:induction false} MapDrainDispatchesHalf(s: Session, copy: seq<Packet>, i: nat, env: Env)
    requires i <= |copy| + 1
    ensures |MapDrain(s, copy, i, env).discarded| >= |copy| - HalfTaken(|copy|, i)
    ensures SocketOpen(s) && (forall p :: p in copy ==> !env.handler(p).closesSocket) ==>
      |MapDrain(s, copy, i, env).discarded| == |copy| - HalfTaken(|copy|, i)
    decreases |copy|
  {
    var n := |copy|;
    if SocketOpen(s) && i < n {
      var s1 := MapDispatch(s, copy[0], env);
      assert MapDrain(s, copy, i, env) == MapDrain(s1, copy[1..], i + 1, env);
      MapDrainDispatchesHalf(s1, copy[1..], i + 1, env);
      HalfTakenStep(n, i);
      if forall p :: p in copy ==> !env.handler(p).closesSocket {
        assert copy[0] in copy;
        assert forall p :: p in copy[1..] ==> p in copy;
      }
    } else {
      assert MapDrain(s, copy, i, env).discarded == copy;
      assert HalfTaken(n, i) >= 0;
      assert SocketOpen(s) ==> HalfTaken(n, i) == 0;
    }
  }

  /** Two LOGGEDIN packets on an open session: the as-written map loop runs the first and drops the second. */
  lemma MapDrainDropsSecondOfTwo(s: Session, p1: Packet, p2: Packet, env: Env)
    requires SocketOpen(s) && !env.handler(p1).closesSocket
    requires StatusOf(env, p1) == LoggedIn && StatusOf(env, p2) == LoggedIn
    ensures MapDrain(s, [p1, p2], 0, env).discarded == [p2]
    ensures RanOpcodes(MapDrain(s, [p1, p2], 0, env).session.log) == RanOpcodes(s.log) + [p1.opcode]
  {
    var s1 := MapDispatch(s, p1, env);
    assert [p1, p2][1..] == [p2];
    assert MapDrain(s, [p1, p2], 0, env) == MapDrain(s1, [p2], 1, env);
    assert MapDrain(s1, [p2], 1, env) == DrainResult(s1, [p2]);
  }

  /** Every handler the map loop runs belongs to a LOGGEDIN opcode. */
  lemma {:induction false} MapDrainRunsOnlyLoggedIn(s: Session, copy: seq<Packet>, i: nat, env: Env)
    ensures var ran := RanOpcodes(MapDrain(s, copy, i, env).session.log);
      && RanOpcodes(s.log) <= ran
      && forall k :: |RanOpcodes(s.log)| <= k < |ran| ==> env.table(ran[k]).status == LoggedIn
    decreases |copy|
  {
    if SocketOpen(s) && i < |copy| {
      var s1 := MapDispatch(s, copy[0], env);
      assert MapDrain(s, copy, i, env) == MapDrain(s1, copy[1..], i + 1, env);
      MapDrainRunsOnlyLoggedIn(s1, copy[1..], i + 1, env);
      LoggedInPrefix(RanOpcodes(s.log), RanOpcodes(s1.log),
                     RanOpcodes(MapDrain(s1, copy[1..], i + 1, env).session.log), copy[0], env);
    }
  }

  /** One map dispatch in front of a run of LOGGEDIN handlers keeps the run LOGGEDIN. */
  lemma LoggedInPrefix(before: seq<Opcode>, mid: seq<Opcode>, ran: seq<Opcode>, p: Packet, env: Env)
    requires mid == before + (if StatusOf(env, p) == LoggedIn then [p.opcode] else [])
    requires mid <= ran
    requires forall k :: |mid| <= k < |ran| ==> env.table(ran[k]).status == LoggedIn
    ensures before <= ran
    ensures forall k :: |before| <= k < |ran| ==> env.table(ran[k]).status == LoggedIn
  {
    forall k | |before| <= k < |ran|
      ensures env.table(ran[k]).status == LoggedIn
    {
      if k < |mid| {
        assert ran[k] == mid[k] == p.opcode;
      }
    }
  }

  /** The map loop with its evident intent: every packet of the copy, while the transport is open. */
  function MapDrainAll(s: Session, q: seq<Packet>, env: Env): (r: DrainResult)
    ensures DispatchFrame(s, r.session) && r.session.recentlyLogout == s.recentlyLogout
    ensures IsSuffix(r.discarded, q)
    ensures r.discarded != [] ==> !SocketOpen(r.session)
    decreases |q|
  {
    if q == [] || !SocketOpen(s) then DrainResult(s, q)
    else
      var s1 := MapDispatch(s, q[0], env);
      var r := MapDrainAll(s1, q[1..], env);
      DispatchFrameTransitive(s, s1, r.session);
      SuffixOfTail(r.discarded, q);
      r
  }

  /** The LOGGEDIN opcodes of a packet sequence, in order. */
  function LoggedInOpcodes(q: seq<Packet>, env: Env): (ops: seq<Opcode>)
    ensures |ops| <= |q|
    ensures forall k :: 0 <= k < |ops| ==> env.table(ops[k]).status == LoggedIn
    ensures forall p :: p in q && StatusOf(env, p) == LoggedIn ==> p.opcode in ops
  {
    if q == [] then []
    else
      assert forall p :: p in q ==> p == q[0] || p in q[1..];
      (if StatusOf(env, q[0]) == LoggedIn then [q[0].opcode] else []) + LoggedInOpcodes(q[1..], env)
  }

  /** The corrected loop handles the whole queue: every LOGGEDIN packet runs, in order, and nothing is dropped. */
  lemma {:induction false} MapDrainAllDispatchesAll(s: Session, q: seq<Packet>, env: Env)
    requires SocketOpen(s)
    requires forall p :: p in q ==> !env.handler(p).closesSocket
    ensures MapDrainAll(s, q, env).discarded == []
    ensures RanOpcodes(MapDrainAll(s, q, env).session.log) == RanOpcodes(s.log) + LoggedInOpcodes(q, env)
    decreases |q|
  {
    if q != [] {
      var s1 := MapDispatch(s, q[0], env);
      assert MapDrainAll(s, q, env) == MapDrainAll(s1, q[1..], env);
      assert q[0] in q;
      assert forall p :: p in q[1..] ==> p in q;
      MapDrainAllDispatchesAll(s1, q[1..], env);
      var first := if StatusOf(env, q[0]) == LoggedIn then [q[0].opcode] else [];
      ConcatStep(RanOpcodes(s.log), RanOpcodes(s1.log), first,
                 LoggedInOpcodes(q[1..], env), RanOpcodes(MapDrainAll(s1, q[1..], env).session.log));
      assert LoggedInOpcodes(q, env) == first + LoggedInOpcodes(q[1..], env);
    }
  }

  /**
   * The whole world tick: run the messager, take the generic queue in one
   * swap (leaving it empty), drain the copy, then evaluate the state machine.
   */
  function UpdateTick(s: Session, now: int, t: Timeouts, env: Env): (r: Tick)
    ensures r.session.recvQueue == [] && r.session.recvQueueMap == s.recvQueueMap
    ensures !r.keep ==> s.state != Created
  {
    var s1 := RunMessages(s);
    var d := Drain(s1.(recvQueue := []), s1.recvQueue, env);
    StateTick(d.session, now, t)
  }

  /** The whole map tick: take the map queue in one swap (leaving it empty), then run the as-written loop. */
  function UpdateMapTick(s: Session, env: Env): (r: Session)
    ensures r.recvQueueMap == [] && r.recvQueue == s.recvQueue
    ensures r.state == s.state && r.player == s.player
  {
    MapDrain(s.(recvQueueMap := []), s.recvQueueMap, 0, env).session
  }

  predicate IsMovement(op: Opcode)
  {
    op == MsgMoveSetFacing || op == MsgMoveHeartbeat
  }

  /** The map queue with its facing and heartbeat packets removed. */
  function WithoutMovement(q: seq<Packet>): (r: seq<Packet>)
    ensures |r| <= |q|
    ensures forall p :: p in r <==> p in q && !IsMovement(p.opcode)
  {
    if q == [] then []
    else (if IsMovement(q[0].opcode) then [] else [q[0]]) + WithoutMovement(q[1..])
  }

  lemma {:induction false} WithoutMovementAppend(a: seq<Packet>, b: seq<Packet>)
    ensures WithoutMovement(a + b) == WithoutMovement(a) + WithoutMovement(b)
  {
    if a == [] {
      assert a + b == b;
    } else {
      assert (a + b)[0] == a[0];
      assert (a + b)[1..] == a[1..] + b;
      WithoutMovementAppend(a[1..], b);
    }
  }

  /** A queue without movement packets is left as it is, so the filter is idempotent. */
  lemma {:induction false} WithoutMovementKeepsOthers(q: seq<Packet>)
    requires forall p :: p in q ==> !IsMovement(p.opcode)
    ensures WithoutMovement(q) == q
  {
    if q != [] {
      assert q[0] in q;
      assert forall p :: p in q[1..] ==> p in q;
      WithoutMovementKeepsOthers(q[1..]);
    }
  }

  lemma WithoutMovementIdempotent(q: seq<Packet>)
    ensures WithoutMovement(WithoutMovement(q)) == WithoutMovement(q)
  {
    WithoutMovementKeepsOthers(WithoutMovement(q));
  }
}
