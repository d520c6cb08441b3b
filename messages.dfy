/**
 * Contents of the outbound messages whose layout the session decides: the
 * message of the day split into lines on '@', the authentication reply for a
 * queue position, and the transfer-aborted payload with its optional
 * trailing argument byte.
 */
module Messages {
  import opened Protocol

  /** Separator of the lines in the configured message of the day. */
  const LineSeparator: char := '@'

  /** Index of the first separator in `s`, or |s| when there is none. */
  function LineEnd(s: string): (i: nat)
    ensures i <= |s|
    ensures forall k :: 0 <= k < i ==> s[k] != LineSeparator
    ensures i < |s| ==> s[i] == LineSeparator
  {
    if s == [] || s[0] == LineSeparator then 0 else 1 + LineEnd(s[1..])
  }

  /** The index that satisfies LineEnd's contract is LineEnd. */
  lemma LineEndUnique(s: string, j: nat)
    requires j <= |s|
    requires forall k :: 0 <= k < j ==> s[k] != LineSeparator
    requires j < |s| ==> s[j] == LineSeparator
    ensures LineEnd(s) == j
  {
  }

  /**
   * The lines std::getline extracts with '@' as delimiter: each separator
   * ends a line, a final unterminated piece is a line too, and nothing is
   * extracted once the input is exhausted (so "" gives no line and a
   * trailing '@' adds no empty line).
   */
  function MotdLines(s: string): (lines: seq<string>)
    ensures lines == [] <==> s == []
    decreases |s|
  {
    if s == [] then []
    else
      var i := LineEnd(s);
      if i == |s| then [s] else [s[..i]] + MotdLines(s[i + 1..])
  }

  /** No extracted line contains the separator. */
  lemma {:induction false} MotdLinesHaveNoSeparator(s: string)
    ensures forall i :: 0 <= i < |MotdLines(s)| ==> LineSeparator !in MotdLines(s)[i]
    decreases |s|
  {
    if s != [] {
      var i := LineEnd(s);
      assert LineSeparator !in s[..i];
      if i < |s| {
        MotdLinesHaveNoSeparator(s[i + 1..]);
      }
    }
  }

  /** The lines glued back together with the separator. */
  function Join(lines: seq<string>): string
  {
    if lines == [] then []
    else if |lines| == 1 then lines[0]
    else lines[0] + [LineSeparator] + Join(lines[1..])
  }

  lemma JoinCons(line: string, lines: seq<string>)
    requires lines != []
    ensures Join([line] + lines) == line + [LineSeparator] + Join(lines)
  {
    assert ([line] + lines)[1..] == lines;
  }

  /** Whether `s` ends in a separator, which MotdLines leaves without an empty last line. */
  function TrailingSeparator(s: string): string
  {
    if s != [] && s[|s| - 1] == LineSeparator then [LineSeparator] else []
  }

  /** Nothing is lost by the split: joining the lines gives the message back. */
  lemma {:induction false} MotdLinesRoundTrip(s: string)
    ensures Join(MotdLines(s)) + TrailingSeparator(s) == s
    decreases |s|
  {
    if s != [] {
      var i := LineEnd(s);
      if i == |s| {
        LastLineRoundTrip(s);
      } else if i + 1 == |s| {
        SeparatorLastRoundTrip(s, i);
      } else {
        MotdLinesRoundTrip(s[i + 1..]);
        FirstLineRoundTrip(s, i);
      }
    }
  }

  lemma SplitAround<T>(s: seq<T>, i: nat)
    requires i < |s|
    ensures s == s[..i] + [s[i]] + s[i + 1..]
  {
  }

  /** The inductive step: the first line in front of the round trip of the rest. */
  lemma FirstLineRoundTrip(s: string, i: nat)
    requires i + 1 < |s| && i == LineEnd(s)
    requires Join(MotdLines(s[i + 1..])) + TrailingSeparator(s[i + 1..]) == s[i + 1..]
    ensures Join(MotdLines(s)) + TrailingSeparator(s) == s
  {
    var line, rest := s[..i], s[i + 1..];
    var tail := MotdLines(rest);
    MotdLinesStep(s, i);
    SplitAround(s, i);
    RoundTripStep(s, line, rest, tail);
  }

  /** The first line, its separator, and the round trip of the rest give the whole message back. */
  lemma RoundTripStep(s: string, line: string, rest: string, tail: seq<string>)
    requires s == line + [LineSeparator] + rest && rest != [] && tail != []
    requires Join(tail) + TrailingSeparator(rest) == rest
    ensures Join([line] + tail) + TrailingSeparator(s) == s
  {
    JoinCons(line, tail);
    assert s[|s| - 1] == rest[|rest| - 1];
    assert TrailingSeparator(rest) == TrailingSeparator(s);
    calc {
      Join([line] + tail) + TrailingSeparator(s);
      line + [LineSeparator] + Join(tail) + TrailingSeparator(rest);
      line + [LineSeparator] + (Join(tail) + TrailingSeparator(rest));
    }
  }

  /** A message without separator is one line. */
  lemma LastLineRoundTrip(s: string)
    requires s != [] && LineEnd(s) == |s|
    ensures Join(MotdLines(s)) + TrailingSeparator(s) == s
  {
    MotdLinesStep(s, |s|);
    assert MotdLines(s) == [s];
    assert Join([s]) == s;
  }

  /** A message whose only separator is its last character is one line. */
  lemma SeparatorLastRoundTrip(s: string, i: nat)
    requires i + 1 == |s| && i == LineEnd(s)
    ensures Join(MotdLines(s)) + TrailingSeparator(s) == s
  {
    MotdLinesStep(s, i);
    assert MotdLines(s) == [s[..i]];
    assert Join([s[..i]]) == s[..i];
    assert s == s[..i] + [LineSeparator];
  }

  /** One step of the split: the first line and what follows its separator. */
  lemma MotdLinesStep(s: string, end: nat)
    requires end <= |s| && s != []
    requires forall k :: 0 <= k < end ==> s[k] != LineSeparator
    requires end < |s| ==> s[end] == LineSeparator
    ensures end == |s| ==> MotdLines(s) == [s]
    ensures end < |s| ==> MotdLines(s) == [s[..end]] + MotdLines(s[end + 1..])
  {
    LineEndUnique(s, end);
  }

  /** One pass of the extraction loop, stated on the unread part of the message. */
  lemma SplitMotdStep(motd: string, pos: nat, end: nat, next: nat)
    requires pos <= end <= |motd| && pos < |motd|
    requires forall k :: pos <= k < end ==> motd[k] != LineSeparator
    requires end < |motd| ==> motd[end] == LineSeparator
    requires next == if end < |motd| then end + 1 else end
    ensures MotdLines(motd[pos..]) == [motd[pos..end]] + MotdLines(motd[next..])
  {
    var rest := motd[pos..];
    MotdLinesStep(rest, end - pos);
    assert rest[..end - pos] == motd[pos..end];
    if end < |motd| {
      assert rest[end - pos + 1..] == motd[next..];
    } else {
      assert motd[next..] == [] && MotdLines(motd[next..]) == [];
      assert rest == motd[pos..end];
    }
  }

  /** SendMotd's extraction loop: read up to the next '@' while input remains. */
  method SplitMotd(motd: string) returns (lines: seq<string>)
    ensures lines == MotdLines(motd)
  {
    lines := [];
    var pos := 0;
    while pos < |motd|
      invariant 0 <= pos <= |motd|
      invariant lines + MotdLines(motd[pos..]) == MotdLines(motd)
      decreases |motd| - pos
    {
      var end := pos;
      while end < |motd| && motd[end] != LineSeparator
        invariant pos <= end <= |motd|
        invariant forall k :: pos <= k < end ==> motd[k] != LineSeparator
        decreases |motd| - end
      {
        end := end + 1;
      }
      var next := if end < |motd| then end + 1 else end;
      SplitMotdStep(motd, pos, end, next);
      SeqAssoc(lines, [motd[pos..end]], MotdLines(motd[next..]));
      lines := lines + [motd[pos..end]];
      pos := next;
    }
  }

  /** The authentication reply for a queue position: accepted at position 0, queued otherwise. */
  function AuthWaitResponse(position: uint32): (m: Outbound)
    ensures m == AuthOk <==> position == 0
    ensures m == AuthQueued <==> position != 0
  {
    if position == 0 then AuthOk else AuthQueued
  }

  /** Transfer-abort reasons whose message carries an argument byte. */
  const TransferAbortInsufExpanLvl: uint8 := 0x07
  const TransferAbortDifficulty: uint8 := 0x08
  const TransferAbortUniqueMessage: uint8 := 0x09

  predicate ReasonTakesArgument(reason: uint8)
  {
    reason == TransferAbortInsufExpanLvl || reason == TransferAbortDifficulty || reason == TransferAbortUniqueMessage
  }

  /** A 32-bit value in the buffer's byte order, least significant byte first. */
  function LittleEndian32(x: uint32): (b: seq<uint8>)
    ensures |b| == 4 && FromLittleEndian32(b) == x as int
  {
    var y1 := x as int / 0x100;
    var y2 := y1 / 0x100;
    var y3 := y2 / 0x100;
    [(x as int % 0x100) as uint8, (y1 % 0x100) as uint8, (y2 % 0x100) as uint8, y3 as uint8]
  }

  function FromLittleEndian32(b: seq<uint8>): int
    requires |b| == 4
  {
    b[0] as int + 0x100 * (b[1] as int + 0x100 * (b[2] as int + 0x100 * b[3] as int))
  }

  /**
   * The transfer-aborted payload: the map id, the reason byte, and the
   * argument byte only for the three reasons that take one.
   */
  function TransferAbortedPayload(mapId: uint32, reason: uint8, arg: uint8): (payload: seq<uint8>)
    ensures |payload| == if ReasonTakesArgument(reason) then 6 else 5
    ensures FromLittleEndian32(payload[..4]) == mapId as int
    ensures payload[4] == reason
    ensures ReasonTakesArgument(reason) ==> payload[5] == arg
  {
    var head := LittleEndian32(mapId) + [reason];
    assert head[..4] == LittleEndian32(mapId);
    if ReasonTakesArgument(reason) then head + [arg] else head
  }
}
