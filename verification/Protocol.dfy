/**
 The reader of the engine's protocol pipe (process.rs). It takes at most MAX_RECORD + 1 bytes at a
 time, so a line longer than that arrives in pieces; the specification knows only lines.
 */
module Protocol {
  import opened Basics

  type byte = x: int | 0 <= x < 256

  const MAX_RECORD := 16 * 1024
  const NEWLINE: byte := 10

  datatype Failure = InvalidProtocol | ReadProtocol | ProtocolEof

  datatype Signal = Port(port: int) | Failed(failure: Failure)

  /** What a well-formed text line says: a diagnostic payload, a valid ready frame, or neither. */
  datatype Frame = Diagnostic(payload: seq<byte>) | Ready(port: int) | NotReady

  /** Text decoding, the two prefixes and the ready payload check; None is a line that is not text. */
  type Decoder = seq<byte> -> Option<Frame>

  /** Everything sent on the ready channel and handed to the diagnostics, in order. */
  datatype Log = Log(signals: seq<Signal>, ingested: seq<seq<byte>>)

  const SILENT := Log([], [])

  function Once(log: Log, signal: Signal): Log {
    if log.signals == [] then log.(signals := [signal]) else log
  }

  // ---- Specification: lines ----

  /** Length of the first line with its newline, or of the whole rest when it has none. */
  function LineLength(data: seq<byte>): (n: nat)
    requires data != []
    ensures 0 < n <= |data|
    ensures forall i :: 0 <= i < n - 1 ==> data[i] != NEWLINE
    ensures n < |data| ==> data[n - 1] == NEWLINE
  {
    if data[0] == NEWLINE || |data| == 1 then 1 else 1 + LineLength(data[1..])
  }

  predicate Complete(line: seq<byte>) {
    line != [] && line[|line| - 1] == NEWLINE
  }

  /** One whole line: a frame if it fits in a record and is text, a protocol error otherwise. */
  function Interpret(line: seq<byte>, decode: Decoder, log: Log): Log {
    if |line| > MAX_RECORD then Once(log, Failed(InvalidProtocol))
    else
      match decode(line)
      case None => Once(log, Failed(InvalidProtocol))
      case Some(Diagnostic(payload)) => log.(ingested := log.ingested + [payload])
      case Some(Ready(port)) => Once(log, Port(port))
      case Some(NotReady) => Once(log, Failed(InvalidProtocol))
  }

  /** How the stream stops: orderly, or with a read error once the data is used up. */
  function Stop(broken: bool, log: Log): Log {
    Once(log, Failed(if broken then ReadProtocol else ProtocolEof))
  }

  /** An unfinished last line is never a frame. A read error is met first if the line still fits. */
  function Unfinished(line: seq<byte>, broken: bool, log: Log): Log {
    if broken && |line| <= MAX_RECORD then Stop(broken, log) else Once(log, Failed(InvalidProtocol))
  }

  function Lines(data: seq<byte>, broken: bool, decode: Decoder, log: Log): Log
    decreases |data|
  {
    if data == [] then Stop(broken, log)
    else
      var n := LineLength(data);
      if Complete(data[..n]) then Lines(data[n..], broken, decode, Interpret(data[..n], decode, log))
      else Unfinished(data, broken, log)
  }

  // ---- The bounded reader ----

  /** read_until behind take(MAX_RECORD + 1). None: the read failed before it could finish. */
  function ReadUntil(data: seq<byte>, broken: bool): (chunk: Option<nat>)
    ensures chunk.Some? ==> chunk.value <= |data| && chunk.value <= MAX_RECORD + 1
  {
    var n := if data == [] then 0 else LineLength(data);
    if n > MAX_RECORD then Some(MAX_RECORD + 1)
    else if broken && !Complete(data[..n]) then None
    else Some(n)
  }

  /** Lines, when the first of them is the rest of a line that was already refused. */
  function Skipping(data: seq<byte>, broken: bool, decode: Decoder, log: Log): Log {
    if data == [] then Stop(broken, log)
    else
      var n := LineLength(data);
      if Complete(data[..n]) then Lines(data[n..], broken, decode, log) else Stop(broken, log)
  }

  function Remaining(discard: bool, data: seq<byte>, broken: bool, decode: Decoder, log: Log): Log {
    if discard then Skipping(data, broken, decode, log) else Lines(data, broken, decode, log)
  }

  lemma {:induction false} LineOfSuffix(data: seq<byte>, k: nat)
    requires data != [] && k < LineLength(data)
    ensures LineLength(data[k..]) == LineLength(data) - k
    decreases k
  {
    if k > 0 {
      assert data[1..][k - 1..] == data[k..];
      LineOfSuffix(data[1..], k - 1);
    }
  }

  /** A piece that ends in a newline ends its line. */
  lemma PieceEndsLine(data: seq<byte>, broken: bool, count: nat)
    requires data != [] && ReadUntil(data, broken) == Some(count) && count > 0
    ensures Complete(data[..count]) ==> count == LineLength(data)
    ensures !Complete(data[..count]) ==> count == MAX_RECORD + 1 || (count == |data| && !broken)
  {
    assert Complete(data[..count]) ==> data[count - 1] == NEWLINE;
  }

  lemma PieceTaken(discard: bool, data: seq<byte>, broken: bool, decode: Decoder, log: Log, count: nat)
    requires data != [] && ReadUntil(data, broken) == Some(count) && count > 0
    requires Complete(data[..count])
    ensures Remaining(discard, data, broken, decode, log)
         == Lines(data[count..], broken, decode, if discard then log else Interpret(data[..count], decode, log))
  {
    PieceEndsLine(data, broken, count);
  }

  lemma RestOfLine(data: seq<byte>, count: nat)
    requires data != [] && 0 < count < LineLength(data)
    ensures var rest := data[count..];
            && LineLength(rest) == LineLength(data) - count
            && rest[LineLength(rest)..] == data[LineLength(data)..]
            && (Complete(rest[..LineLength(rest)]) <==> Complete(data[..LineLength(data)]))
  {
    LineOfSuffix(data, count);
    hide LineLength;
    var n, rest := LineLength(data), data[count..];
    assert rest[n - count..] == data[n..];
    assert rest[..n - count][n - count - 1] == data[n - 1];
    assert data[..n][n - 1] == data[n - 1];
  }

  /** A piece without one refuses its line, and the rest of that line is skipped. */
  lemma PieceRefused(discard: bool, data: seq<byte>, broken: bool, decode: Decoder, log: Log, count: nat)
    requires data != [] && ReadUntil(data, broken) == Some(count) && count > 0
    requires !Complete(data[..count])
    requires discard ==> log.signals != []
    ensures Remaining(discard, data, broken, decode, log)
         == Skipping(data[count..], broken, decode, Once(log, Failed(InvalidProtocol)))
  {
    PieceEndsLine(data, broken, count);
    var n := LineLength(data);
    hide LineLength;
    if count < n {
      RestOfLine(data, count);
    } else {
      assert n == |data| && data[..n] == data;
    }
  }

  /** A frame that fits in a record. */
  method TakeFrame(bytes: seq<byte>, decode: Decoder, before: Log, already: bool) returns (log: Log, sent: bool)
    requires |bytes| <= MAX_RECORD
    requires |before.signals| == if already then 1 else 0
    ensures log == Interpret(bytes, decode, before)
    ensures |log.signals| == if sent then 1 else 0
    ensures already ==> sent
  {
    log, sent := before, already;
    var frame := decode(bytes);
    if frame.Some? && frame.value.Diagnostic? {
      log := log.(ingested := log.ingested + [frame.value.payload]);
    } else if !sent {
      var valid := frame.Some? && frame.value.Ready?;
      log := log.(signals := log.signals + [if valid then Port(frame.value.port) else Failed(InvalidProtocol)]);
      sent := true;
    }
  }

  method Refuse(failure: Failure, before: Log, already: bool) returns (log: Log)
    requires |before.signals| == if already then 1 else 0
    ensures log == Once(before, Failed(failure)) && |log.signals| == 1
  {
    log := before;
    if !already {
      log := log.(signals := log.signals + [Failed(failure)]);
    }
  }

  /** For every stream the reader does what the lines say, and sends exactly one result. */
  method ReceiveProtocol(data: seq<byte>, broken: bool, decode: Decoder) returns (log: Log)
    ensures log == Lines(data, broken, decode, SILENT)
    ensures |log.signals| == 1
  {
    log := SILENT;
    ghost var whole := Lines(data, broken, decode, SILENT);
    var rest, sent, discard := data, false, false;
    while true
      invariant |log.signals| == if sent then 1 else 0
      invariant discard ==> sent
      invariant Remaining(discard, rest, broken, decode, log) == whole
      decreases |rest|
    {
      var chunk := ReadUntil(rest, broken);
      if chunk.None? {
        log := Refuse(ReadProtocol, log, sent);
        return;
      }
      var count := chunk.value;
      if count == 0 {
        break;
      }
      var bytes := rest[..count];
      var complete := Complete(bytes);
      if complete {
        PieceTaken(discard, rest, broken, decode, log, count);
      } else {
        PieceRefused(discard, rest, broken, decode, log, count);
      }
      rest := rest[count..];
      if discard || !complete || |bytes| > MAX_RECORD {
        log := Refuse(InvalidProtocol, log, sent);
        sent, discard := true, !complete;
        continue;
      }
      log, sent := TakeFrame(bytes, decode, log, sent);
    }
    log := Refuse(ProtocolEof, log, sent);
  }

  // ---- What the specification means ----

  /** The newline-terminated lines of a stream, and what follows the last of them. */
  function SplitLines(data: seq<byte>): seq<seq<byte>>
    decreases |data|
  {
    if data == [] then []
    else
      var n := LineLength(data);
      if Complete(data[..n]) then [data[..n]] + SplitLines(data[n..]) else []
  }

  function Leftover(data: seq<byte>): seq<byte>
    decreases |data|
  {
    if data == [] then []
    else
      var n := LineLength(data);
      if Complete(data[..n]) then Leftover(data[n..]) else data
  }

  function Flatten(lines: seq<seq<byte>>): seq<byte> {
    if lines == [] then [] else lines[0] + Flatten(lines[1..])
  }

  lemma Reassemble(head: seq<byte>, flat: seq<byte>, left: seq<byte>, tail: seq<byte>)
    requires flat + left == tail
    ensures head + flat + left == head + tail
  {
  }

  lemma FlattenFirst(head: seq<byte>, rest: seq<seq<byte>>)
    ensures Flatten([head] + rest) == head + Flatten(rest)
  {
    assert ([head] + rest)[1..] == rest;
  }

  predicate StartsComplete(data: seq<byte>) {
    data != [] && Complete(data[..LineLength(data)])
  }

  lemma SplitFirst(data: seq<byte>)
    ensures if StartsComplete(data)
            then var head, tail := data[..LineLength(data)], data[LineLength(data)..];
                 SplitLines(data) == [head] + SplitLines(tail) && Leftover(data) == Leftover(tail)
            else Flatten(SplitLines(data)) == [] && Leftover(data) == data
  {
  }

  /** The split loses nothing. */
  lemma {:induction false} SplitLosesNothing(data: seq<byte>)
    ensures Flatten(SplitLines(data)) + Leftover(data) == data
    decreases |data|
  {
    hide Flatten, SplitLines, Leftover, Complete;
    SplitFirst(data);
    if StartsComplete(data) {
      var n := LineLength(data);
      SplitLosesNothing(data[n..]);
      FlattenFirst(data[..n], SplitLines(data[n..]));
      Reassemble(data[..n], Flatten(SplitLines(data[n..])), Leftover(data[n..]), data[n..]);
    }
  }

  predicate OneNewline(line: seq<byte>) {
    Complete(line) && NEWLINE !in line[..|line| - 1]
  }

  /** Every line holds exactly one newline, its last byte; the leftover holds none. */
  lemma {:induction false} SplitAtNewlines(data: seq<byte>)
    ensures NEWLINE !in Leftover(data)
    ensures forall line | line in SplitLines(data) :: OneNewline(line)
    decreases |data|
  {
    if data != [] {
      var n := LineLength(data);
      if Complete(data[..n]) {
        SplitAtNewlines(data[n..]);
        assert data[..n][..n - 1] == data[..n - 1];
        assert OneNewline(data[..n]);
      } else {
        assert data[n - 1] == data[..n][n - 1];
      }
    }
  }

  predicate IsDiagnostic(line: seq<byte>, decode: Decoder) {
    |line| <= MAX_RECORD && decode(line).Some? && decode(line).value.Diagnostic?
  }

  predicate IsReady(line: seq<byte>, decode: Decoder, port: int) {
    |line| <= MAX_RECORD && decode(line) == Some(Ready(port))
  }

  function Payloads(lines: seq<seq<byte>>, decode: Decoder): seq<seq<byte>> {
    if lines == [] then []
    else (if IsDiagnostic(lines[0], decode) then [decode(lines[0]).value.payload] else []) + Payloads(lines[1..], decode)
  }

  /** Every diagnostic frame is ingested once and in order, before and after the result was sent. */
  lemma {:induction false} IngestsEveryDiagnostic(data: seq<byte>, broken: bool, decode: Decoder, log: Log)
    ensures Lines(data, broken, decode, log).ingested == log.ingested + Payloads(SplitLines(data), decode)
    decreases |data|
  {
    if data != [] {
      var n := LineLength(data);
      if Complete(data[..n]) {
        var next := Interpret(data[..n], decode, log);
        IngestsEveryDiagnostic(data[n..], broken, decode, next);
        var lines := SplitLines(data);
        assert lines[0] == data[..n] && lines[1..] == SplitLines(data[n..]);
        var first := if IsDiagnostic(data[..n], decode) then [decode(data[..n]).value.payload] else [];
        assert next.ingested == log.ingested + first;
        assert Payloads(lines, decode) == first + Payloads(lines[1..], decode);
      }
    }
  }

  lemma {:induction false} SentOnce(data: seq<byte>, broken: bool, decode: Decoder, log: Log)
    requires log.signals != []
    ensures Lines(data, broken, decode, log).signals == log.signals
    decreases |data|
  {
    if data != [] {
      var n := LineLength(data);
      if Complete(data[..n]) {
        SentOnce(data[n..], broken, decode, Interpret(data[..n], decode, log));
      }
    }
  }

  /** Some line is the valid ready frame, and only diagnostics came before it. */
  ghost predicate ReadyComes(lines: seq<seq<byte>>, decode: Decoder, port: int) {
    exists k :: 0 <= k < |lines| && IsReady(lines[k], decode, port) && forall j :: 0 <= j < k ==> IsDiagnostic(lines[j], decode)
  }

  lemma ReadyComesFirstOrLater(lines: seq<seq<byte>>, decode: Decoder, port: int)
    requires lines != []
    ensures ReadyComes(lines, decode, port)
       <==> IsReady(lines[0], decode, port) || (IsDiagnostic(lines[0], decode) && ReadyComes(lines[1..], decode, port))
  {
    if IsDiagnostic(lines[0], decode) && ReadyComes(lines[1..], decode, port) {
      var k :| 0 <= k < |lines[1..]| && IsReady(lines[1..][k], decode, port)
               && forall j :: 0 <= j < k ==> IsDiagnostic(lines[1..][j], decode);
      assert IsReady(lines[k + 1], decode, port);
      assert forall j :: 0 < j < k + 1 ==> lines[j] == lines[1..][j - 1];
    }
    if ReadyComes(lines, decode, port) && !IsReady(lines[0], decode, port) {
      var k :| 0 <= k < |lines| && IsReady(lines[k], decode, port) && forall j :: 0 <= j < k ==> IsDiagnostic(lines[j], decode);
      assert lines[1..][k - 1] == lines[k];
      assert forall j :: 0 <= j < k - 1 ==> lines[1..][j] == lines[j + 1];
    }
  }

  /** The port is reported exactly if the first line that is not a diagnostic is a valid ready frame. */
  lemma {:induction false} ReadyIffFirst(data: seq<byte>, broken: bool, decode: Decoder, log: Log, port: int)
    requires log.signals == []
    ensures Lines(data, broken, decode, log).signals == [Port(port)] <==> ReadyComes(SplitLines(data), decode, port)
    decreases |data|
  {
    if data != [] {
      var n := LineLength(data);
      if Complete(data[..n]) {
        var next := Interpret(data[..n], decode, log);
        assert SplitLines(data)[1..] == SplitLines(data[n..]);
        ReadyComesFirstOrLater(SplitLines(data), decode, port);
        if next.signals == [] {
          ReadyIffFirst(data[n..], broken, decode, next, port);
        } else {
          SentOnce(data[n..], broken, decode, next);
        }
      }
    }
  }

  predicate AllDiagnostic(lines: seq<seq<byte>>, decode: Decoder) {
    forall j :: 0 <= j < |lines| ==> IsDiagnostic(lines[j], decode)
  }

  /** What is sent for a stream of diagnostics alone depends on how it ends. */
  function Ending(left: seq<byte>, broken: bool): Failure {
    if broken && |left| <= MAX_RECORD then ReadProtocol else if left == [] then ProtocolEof else InvalidProtocol
  }

  /** What the first line that is not a diagnostic decides. */
  function Verdict(line: seq<byte>, decode: Decoder): Signal {
    if |line| <= MAX_RECORD && decode(line).Some? && decode(line).value.Ready? then Port(decode(line).value.port)
    else Failed(InvalidProtocol)
  }

  lemma {:induction false} DiagnosticsOnly(data: seq<byte>, broken: bool, decode: Decoder, log: Log)
    requires log.signals == [] && AllDiagnostic(SplitLines(data), decode)
    ensures Lines(data, broken, decode, log).signals == [Failed(Ending(Leftover(data), broken))]
    decreases |data|
  {
    if data != [] {
      var n := LineLength(data);
      if Complete(data[..n]) {
        var lines := SplitLines(data);
        assert lines[0] == data[..n] && lines[1..] == SplitLines(data[n..]);
        DiagnosticsOnly(data[n..], broken, decode, Interpret(data[..n], decode, log));
      }
    }
  }

  lemma {:induction false} FirstOtherDecides(data: seq<byte>, broken: bool, decode: Decoder, log: Log, k: nat)
    requires log.signals == [] && k < |SplitLines(data)| && !IsDiagnostic(SplitLines(data)[k], decode)
    requires AllDiagnostic(SplitLines(data)[..k], decode)
    ensures Lines(data, broken, decode, log).signals == [Verdict(SplitLines(data)[k], decode)]
    decreases |data|
  {
    var n, lines := LineLength(data), SplitLines(data);
    var next := Interpret(data[..n], decode, log);
    assert lines[0] == data[..n] && lines[1..] == SplitLines(data[n..]);
    if k == 0 {
      SentOnce(data[n..], broken, decode, next);
    } else {
      assert lines[..k][0] == lines[0] && lines[1..][..k - 1] == lines[..k][1..];
      FirstOtherDecides(data[n..], broken, decode, next, k - 1);
    }
  }

  /**
   The one result of every stream: the verdict on the first line that is not a diagnostic; if there is no
   such line, a read error, the end of the stream, or an invalid last line.
  */
  lemma ResultIs(data: seq<byte>, broken: bool, decode: Decoder) returns (k: nat)
    ensures k <= |SplitLines(data)| && AllDiagnostic(SplitLines(data)[..k], decode)
    ensures k < |SplitLines(data)| ==> !IsDiagnostic(SplitLines(data)[k], decode)
    ensures Lines(data, broken, decode, SILENT).signals
            == [if k < |SplitLines(data)| then Verdict(SplitLines(data)[k], decode) else Failed(Ending(Leftover(data), broken))]
  {
    var lines := SplitLines(data);
    k := 0;
    while k < |lines| && IsDiagnostic(lines[k], decode)
      invariant k <= |lines| && AllDiagnostic(lines[..k], decode)
    {
      k := k + 1;
    }
    if k < |lines| {
      FirstOtherDecides(data, broken, decode, SILENT, k);
    } else {
      assert lines[..k] == lines;
      DiagnosticsOnly(data, broken, decode, SILENT);
    }
  }

  // ---- The two kinds of line ----

  /** A typed ready payload: JSON with exactly these fields, the port a 16-bit number. */
  datatype Payload = Payload(version: int, port: nat, pid: nat)

  type Text = seq<byte> -> bool
  type Json = seq<byte> -> Option<Payload>

  function Ascii(s: string): seq<byte>
    requires forall i :: 0 <= i < |s| ==> s[i] < 128 as char
  {
    seq(|s|, i requires 0 <= i < |s| => s[i] as int as byte)
  }

  const DIAGNOSTIC := Ascii("WENYI_DIAGNOSTIC ")
  const READY := Ascii("WENYI_READY ")

  /** `ready`: the prefix, then version 1, a port and the identity of the child that was spawned. */
  function ReadyPort(line: seq<byte>, json: Json, pid: nat): Option<nat> {
    if !(READY <= line) then None
    else
      match json(line[|READY|..])
      case None => None
      case Some(v) => if v.version != 1 || v.port == 0 || v.pid != pid then None else Some(v.port)
  }

  function Frames(text: Text, json: Json, pid: nat): Decoder {
    (line: seq<byte>) =>
      if !text(line) then None
      else if DIAGNOSTIC <= line then Some(Diagnostic(line[|DIAGNOSTIC|..]))
      else
        var port := ReadyPort(line, json, pid);
        Some(if port.Some? then Ready(port.value) else NotReady)
  }

  /** The line that announced the port, and nothing but diagnostics before it. */
  ghost predicate Announced(data: seq<byte>, text: Text, json: Json, pid: nat, port: nat, k: nat) {
    var lines := SplitLines(data);
    && k < |lines| && |lines[k]| <= MAX_RECORD && text(lines[k]) && READY <= lines[k]
    && json(lines[k][|READY|..]) == Some(Payload(1, port, pid)) && port != 0
    && (forall j :: 0 <= j < k ==> text(lines[j]) && DIAGNOSTIC <= lines[j])
  }

  lemma PrefixesDiffer(line: seq<byte>)
    ensures !(READY <= line && DIAGNOSTIC <= line)
  {
    assert READY[6] == 82 && DIAGNOSTIC[6] == 68;
  }

  /** Whatever the child announces in this way is passed on. */
  lemma AnnouncedIsSent(data: seq<byte>, broken: bool, text: Text, json: Json, pid: nat, port: nat, k: nat)
    requires Announced(data, text, json, pid, port, k)
    requires forall j :: 0 <= j < k ==> |SplitLines(data)[j]| <= MAX_RECORD
    ensures Lines(data, broken, Frames(text, json, pid), SILENT).signals == [Port(port)]
  {
    var decode, lines := Frames(text, json, pid), SplitLines(data);
    PrefixesDiffer(lines[k]);
    assert IsReady(lines[k], decode, port);
    assert forall j :: 0 <= j < k ==> IsDiagnostic(lines[j], decode);
    ReadyIffFirst(data, broken, decode, SILENT, port);
  }

  /** A port is passed on only if the child itself announced it, on a whole line, before saying anything else. */
  lemma PortIsAuthentic(data: seq<byte>, broken: bool, text: Text, json: Json, pid: nat, port: nat)
    requires Lines(data, broken, Frames(text, json, pid), SILENT).signals == [Port(port)]
    ensures exists k :: Announced(data, text, json, pid, port, k)
  {
    var decode := Frames(text, json, pid);
    var lines := SplitLines(data);
    ReadyIffFirst(data, broken, decode, SILENT, port);
    var k :| 0 <= k < |lines| && IsReady(lines[k], decode, port) && forall j :: 0 <= j < k ==> IsDiagnostic(lines[j], decode);
    forall j | 0 <= j < k
      ensures text(lines[j]) && DIAGNOSTIC <= lines[j]
    {
      assert IsDiagnostic(lines[j], decode);
    }
    assert Announced(data, text, json, pid, port, k);
  }
}
