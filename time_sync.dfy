/**
 * Clock synchronisation with the client: the bookkeeping of outstanding
 * time-sync requests and the server time assigned to a movement.
 */
module TimeSync {
  import opened Protocol

  /** Delay before the second request, and between all later ones, in milliseconds. */
  const FirstSyncInterval: nat := 5000
  const SyncInterval: nat := 10000

  /** The counter of the next request, the send time of each outstanding one, and the timer to the next. */
  datatype SyncState = SyncState(nextCounter: uint32, pending: map<uint32, uint32>, timer: nat)

  /** ResetTimeSync: counting restarts at zero and no request is outstanding; the timer is kept. */
  function SyncReset(t: SyncState): (r: SyncState)
    ensures r.nextCounter == 0 && r.pending == map[] && r.timer == t.timer
  {
    t.(nextCounter := 0, pending := map[])
  }

  /**
   * SendTimeSync's bookkeeping: the request carries the current counter, whose
   * send time is recorded; the first request schedules the next one sooner;
   * the counter advances with 32-bit wrap-around.
   */
  function SyncSent(t: SyncState, nowMs: uint32): (r: SyncState)
    ensures r.pending.Keys == t.pending.Keys + {t.nextCounter}
    ensures r.pending[t.nextCounter] == nowMs
    ensures forall c :: c in t.pending && c != t.nextCounter ==> r.pending[c] == t.pending[c]
    ensures r.timer == if t.nextCounter == 0 then FirstSyncInterval else SyncInterval
    ensures r.nextCounter as int == (t.nextCounter as int + 1) % 0x1_0000_0000
  {
    SyncState(((t.nextCounter as int + 1) % 0x1_0000_0000) as uint32,
              t.pending[t.nextCounter := nowMs],
              if t.nextCounter == 0 then FirstSyncInterval else SyncInterval)
  }

  /** Requests sent one after another at the given times. */
  function SyncSentAll(t: SyncState, times: seq<uint32>): SyncState
  {
    if times == [] then t else SyncSent(SyncSentAll(t, times[..|times| - 1]), times[|times| - 1])
  }

  /**
   * After a reset and fewer than 2^32 requests, the counter equals the number
   * sent, exactly the requests numbered 0 .. n-1 are outstanding, each with
   * its own send time, and the timer is 5 s after the first request and 10 s
   * after every later one.
   */
  lemma {:induction false} SyncAfterReset(t: SyncState, times: seq<uint32>)
    requires |times| < 0x1_0000_0000
    ensures var r := SyncSentAll(SyncReset(t), times);
      && r.nextCounter as int == |times|
      && (forall c: uint32 :: c in r.pending <==> (c as int) < |times|)
      && (forall i :: 0 <= i < |times| ==> r.pending[i as uint32] == times[i])
      && r.timer == if times == [] then t.timer else if |times| == 1 then FirstSyncInterval else SyncInterval
  {
    if times != [] {
      var n := |times| - 1;
      var before := times[..n];
      SyncAfterReset(t, before);
      var p := SyncSentAll(SyncReset(t), before);
      var r := SyncSent(p, times[n]);
      assert SyncSentAll(SyncReset(t), times) == r;
      assert p.nextCounter as int == n;
      forall i | 0 <= i < |times|
        ensures r.pending[i as uint32] == times[i]
      {
        if i < n {
          assert before[i] == times[i];
        }
      }
    }
  }

  /** Largest unsigned 32-bit value, the upper end of the accepted movement times. */
  const MaxUint32: int := 0xFFFF_FFFF

  /**
   * The server time of a client movement: the client timestamp shifted by the
   * measured clock delta, unless no delta is known yet or the shifted value
   * leaves the unsigned 32-bit range, in which case the current server time.
   */
  function SynchronizedTime(clientTime: uint32, clockDelta: int, currentMs: uint32): (serverTime: uint32)
    ensures clockDelta != 0 && 0 <= clientTime as int + clockDelta <= MaxUint32 ==>
      serverTime as int - clientTime as int == clockDelta
    ensures clockDelta == 0 || clientTime as int + clockDelta < 0 || clientTime as int + clockDelta > MaxUint32 ==>
      serverTime == currentMs
  {
    var movementTime := clientTime as int + clockDelta;
    if clockDelta == 0 || movementTime < 0 || movementTime > MaxUint32 then currentMs
    else movementTime as uint32
  }
}
