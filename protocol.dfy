/**
 * The entities a world session works with: packets, the opcode table's
 * descriptors, the transport and the player as the session sees them, and
 * the observable events (outbound messages, handler runs, diagnostics,
 * transport actions) that the model records in order.
 */
module Protocol {

  datatype Option<T> = None | Some(value: T)

  /** Fixed-width unsigned integers as they appear on the wire and in the tables. */
  newtype uint8 = x: int | 0 <= x < 0x100
  newtype uint32 = x: int | 0 <= x < 0x1_0000_0000

  /** Protocol message identifier. */
  type Opcode = nat

  /** Opcodes the session code names explicitly. Only their distinctness matters. */
  const MsgMoveSetFacing: Opcode := 0x0DA
  const MsgMoveHeartbeat: Opcode := 0x0EE
  const CmsgSetActiveVoiceChannel: Opcode := 0x3D3

  /** Execution context an opcode must run in. */
  datatype ProcessingMode = Immediate | InPlace | ThreadUnsafe | MapThread

  /** Admission status of an opcode; `UnknownStatus` stands for any value outside the enumeration. */
  datatype SessionStatus =
    | LoggedIn
    | LoggedInOrRecentlyLoggedOut
    | Transfer
    | Authed
    | Never
    | Unhandled
    | UnknownStatus(code: nat)

  /** One row of the opcode table (the handler itself is opaque, see HandlerOutcome). */
  datatype OpcodeHandler = OpcodeHandler(processing: ProcessingMode, status: SessionStatus)

  /** A received packet: opcode plus read and write cursors of its payload. */
  datatype Packet = Packet(opcode: Opcode, rpos: nat, wpos: nat)

  /**
   * What running an opaque handler on a packet does, as far as the session can see:
   * how many payload bytes it read, whether it raised a ByteBufferException,
   * and whether it closed the transport.
   */
  datatype HandlerOutcome = HandlerOutcome(consumed: nat, faulted: bool, closesSocket: bool)

  /** The transport as the session holds it. */
  datatype Socket = Socket(id: nat, closed: bool)

  /** The attached player, reduced to its identity and whether it is in the world. */
  datatype Player = Player(guid: nat, inWorld: bool)

  datatype SessionState = Created | CharSelection | Ready | Offline

  /** Outbound messages whose triggering conditions belong to the session. */
  datatype Outbound =
    | AuthOk
    | AuthQueued
    | LogoutComplete
    | Motd(lines: seq<string>)
    | TimeSyncRequest(counter: uint32)
    | TransferAborted(payload: seq<uint8>)

  /** Why an admission check refused a packet (each is a logged diagnostic). */
  datatype Rejection =
    | NotLoggedIn
    | NotLoggedInNorRecentlyLoggedOut
    | StillInWorld
    | StillInQueue
    | NotAllowed
    | NotHandled
    | WrongStatus

  /** Observable effects, in the order they happen. */
  datatype Event =
    | Sent(msg: Outbound)
    | Ran(opcode: Opcode)
    | Rejected(opcode: Opcode, why: Rejection)
    | UnprocessedTail(opcode: Opcode)
    | BadPacket(opcode: Opcode)
    | SocketClosed(socketId: nat)
    | SocketFinalized(socketId: nat)
    | FriendOffline(guid: nat)
    | PlayerRemoved(guid: nat, saved: bool)
    | KickRequested(guid: nat)
    | AccountDataIgnored(dataType: uint32, outOfRange: bool)

  /** The opcodes whose handlers ran, in order. */
  function RanOpcodes(events: seq<Event>): (ops: seq<Opcode>)
    ensures |ops| <= |events|
  {
    if events == [] then []
    else (if events[0].Ran? then [events[0].opcode] else []) + RanOpcodes(events[1..])
  }

  lemma {:induction false} RanOpcodesAppend(a: seq<Event>, b: seq<Event>)
    ensures RanOpcodes(a + b) == RanOpcodes(a) + RanOpcodes(b)
    decreases |a|
  {
    if a == [] {
      assert a + b == b;
    } else {
      var head := if a[0].Ran? then [a[0].opcode] else [];
      assert a + b == [a[0]] + (a[1..] + b);
      assert a == [a[0]] + a[1..];
      RanOpcodesCons(a[0], a[1..] + b);
      RanOpcodesCons(a[0], a[1..]);
      RanOpcodesAppend(a[1..], b);
      SeqAssoc(head, RanOpcodes(a[1..]), RanOpcodes(b));
    }
  }

  lemma RanOpcodesCons(e: Event, rest: seq<Event>)
    ensures RanOpcodes([e] + rest) == (if e.Ran? then [e.opcode] else []) + RanOpcodes(rest)
  {
    assert ([e] + rest)[0] == e;
    assert ([e] + rest)[1..] == rest;
  }

  lemma SeqAssoc<T>(a: seq<T>, b: seq<T>, c: seq<T>)
    ensures a + b + c == a + (b + c)
  {
  }

  /** The opcodes of a packet sequence, in order. */
  function Opcodes(q: seq<Packet>): (ops: seq<Opcode>)
    ensures |ops| == |q|
    ensures forall i :: 0 <= i < |q| ==> ops[i] == q[i].opcode
  {
    if q == [] then [] else [q[0].opcode] + Opcodes(q[1..])
  }
}
