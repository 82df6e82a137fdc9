/** The serial side of the relay (key2ser/runner.py:299-370, 583-598): the
    frame time of one byte, the byte-by-byte send with a bounded retry on
    short writes, the plain send, and the DTR/RTS defaulting.

    The pyserial port is an external object; here it is a value that
    records every call made on it, and the send operations return the port
    after the calls together with how the send ended. */
module Serial {
  import opened Common
  import opened Config
  import opened Failures

  type Byte = x: int | 0 <= x < 256

  /** payload.encode(encoding, errors=...): the bytes, a UnicodeEncodeError,
      or a LookupError for an unknown codec. */
  datatype Encoded = Bytes(data: seq<Byte>) | Unencodable | UnknownEncoding

  /** What one port.write call does: return a count, return None, or raise
      SerialException / OSError. */
  datatype Reply = Wrote(count: int) | ReturnedNone | Raised

  /** A call made on the port, in the order it was made. */
  datatype PortCall = WriteCall(data: seq<Byte>, reply: Reply) | FlushCall

  /** The port as the send path sees it. `replies` scripts the answers of
      the next write calls; once it is used up every write accepts all of
      its bytes. `flushRaises` makes flush() raise. */
  datatype Port = Port(replies: seq<Reply>, log: seq<PortCall>, flushRaises: bool)

  /** The modem control lines of the port: the levels last set (None:
      never set), and whether setDTR() and setRTS() raise. */
  datatype ModemLines = ModemLines(dtr: Option<bool>, rts: Option<bool>, dtrRaises: bool, rtsRaises: bool)

  /** How a send ended: normally, skipped because the payload could not be
      encoded (logged and dropped), or with an exception. */
  datatype Outcome = Done | Skipped | Failed(failure: Failure)

  /** The answer to the next write of `size` bytes. */
  function Answer(replies: seq<Reply>, size: nat): Reply {
    if replies == [] then Wrote(size) else replies[0]
  }

  /** The script after one write. */
  function Rest(replies: seq<Reply>): seq<Reply> {
    if replies == [] then [] else replies[1..]
  }

  /** One port.write(data) call. */
  function Write(p: Port, data: seq<Byte>): (r: (Reply, Port))
    ensures r.0 == Answer(p.replies, |data|)
    ensures r.1 == Port(Rest(p.replies), p.log + [WriteCall(data, r.0)], p.flushRaises)
  {
    var reply := Answer(p.replies, |data|);
    (reply, Port(Rest(p.replies), p.log + [WriteCall(data, reply)], p.flushRaises))
  }

  /** One port.flush() call; false when it raised. */
  function Flush(p: Port): (r: (bool, Port))
    ensures r.1 == Port(p.replies, p.log + [FlushCall], p.flushRaises) && r.0 == !p.flushRaises
  {
    (!p.flushRaises, Port(p.replies, p.log + [FlushCall], p.flushRaises))
  }

  /** The parity bit of a frame: none for parity "N", one otherwise. */
  function ParityBits(parity: string): (r: int)
    ensures r == 0 <==> parity == "N"
    ensures 0 <= r <= 1
  {
    if parity == "N" then 0 else 1
  }

  /** _calculate_frame_seconds: the time one byte takes on the line, start
      bit, data bits, parity bit and stop bits together; Python raises
      ZeroDivisionError for a zero baud rate, so the callers check it. */
  function FrameSeconds(cfg: SerialConfig): (r: real)
    requires cfg.baudrate != 0
    ensures r * cfg.baudrate as real == (1 + cfg.bytesize + ParityBits(cfg.parity)) as real + cfg.stopbits
  {
    ((1 + cfg.bytesize + ParityBits(cfg.parity)) as real + cfg.stopbits) / cfg.baudrate as real
  }

  /** The bytes one call got accepted: all of a write that reported them
      all written, nothing otherwise. */
  function Accepted(c: PortCall): seq<Byte> {
    if c.WriteCall? && c.reply == Wrote(|c.data|) then c.data else []
  }

  /** The bytes the port accepted in full, in order. */
  function Delivered(log: seq<PortCall>): seq<Byte> {
    if log == [] then [] else Accepted(log[0]) + Delivered(log[1..])
  }

  /** The number of write calls in a log. */
  function WriteCount(log: seq<PortCall>): nat {
    if log == [] then 0 else (if log[0].WriteCall? then 1 else 0) + WriteCount(log[1..])
  }

  /** A short write: nothing written, as a count of 0 or as None. */
  predicate IsShort(reply: Reply) {
    reply == Wrote(0) || reply == ReturnedNone
  }

  /** A run of write calls: the calls made, the script left, and whether
      every byte went out. */
  datatype Run = Run(calls: seq<PortCall>, rest: seq<Reply>, ok: bool)

  /** Calls made before a run. */
  function Join(calls: seq<PortCall>, r: Run): Run {
    Run(calls + r.calls, r.rest, r.ok)
  }

  /** The port after a run of writes. */
  function After(p: Port, r: Run): Port {
    Port(r.rest, p.log + r.calls, p.flushRaises)
  }

  /** The retry loop for one byte (key2ser/runner.py:336-343) from the
      given attempt on. */
  function ByteRun(replies: seq<Reply>, b: Byte, attempt: nat): Run
    requires attempt < 3
    decreases 3 - attempt
  {
    var reply := Answer(replies, 1);
    var call := WriteCall([b], reply);
    if reply == Wrote(1) then Run([call], Rest(replies), true)
    else if IsShort(reply) && attempt < 2 then Join([call], ByteRun(Rest(replies), b, attempt + 1))
    else Run([call], Rest(replies), false)
  }

  /** Every byte in turn; stops at the first byte that does not go out. */
  function EachRun(replies: seq<Reply>, data: seq<Byte>): Run
    decreases |data|
  {
    if data == [] then Run([], replies, true)
    else
      var first := ByteRun(replies, data[0], 0);
      if !first.ok then first else Join(first.calls, EachRun(first.rest, data[1..]))
  }

  /** _send_payload: one write of all the bytes, then a flush; the count the
      write returns is not looked at. */
  function PlainSend(p: Port, encoded: Encoded): (r: (Port, Outcome))
    ensures encoded == Unencodable ==> r == (p, Skipped)
    ensures encoded == UnknownEncoding ==> r == (p, Failed(ValueError(UnknownEncodingMessage)))
    ensures r.1.Failed? && encoded.Bytes? ==> r.1 == Failed(SerialConnection(SendFailedMessage))
    ensures r.1 == Done ==>
      (encoded.Bytes? && r.0.log == p.log + [WriteCall(encoded.data, Answer(p.replies, |encoded.data|)), FlushCall])
    ensures encoded.Bytes? ==> (r.1 == Done <==> Answer(p.replies, |encoded.data|) != Raised && !p.flushRaises)
    ensures encoded.Bytes? && Answer(p.replies, |encoded.data|) == Raised ==>
      r.0 == Port(Rest(p.replies), p.log + [WriteCall(encoded.data, Raised)], p.flushRaises)
    ensures encoded.Bytes? && Answer(p.replies, |encoded.data|) != Raised ==>
      r.0 == Port(Rest(p.replies), p.log + [WriteCall(encoded.data, Answer(p.replies, |encoded.data|)), FlushCall], p.flushRaises)
  {
    match encoded
    case Unencodable => (p, Skipped)
    case UnknownEncoding => (p, Failed(ValueError(UnknownEncodingMessage)))
    case Bytes(data) =>
      var (reply, p1) := Write(p, data);
      if reply == Raised then (p1, Failed(SerialConnection(SendFailedMessage)))
      else
        var (ok, p2) := Flush(p1);
        if ok then (p2, Done) else (p2, Failed(SerialConnection(SendFailedMessage)))
  }

  /** _send_payload_with_timing, as the function the method below computes. */
  function TimedSend(p: Port, encoded: Encoded, cfg: SerialConfig): (r: (Port, Outcome))
    ensures encoded == Unencodable ==> r == (p, Skipped)
    ensures encoded == UnknownEncoding ==> r == (p, Failed(ValueError(UnknownEncodingMessage)))
    ensures encoded == Bytes([]) ==> r == (p, Done)
    ensures encoded.Bytes? && encoded.data != [] && cfg.baudrate == 0 ==> r == (p, Failed(ZeroDivision))
    ensures encoded.Bytes? && encoded.data != [] && cfg.baudrate != 0 && FrameSeconds(cfg) <= 0.0 ==>
      r == PlainSend(p, encoded)
  {
    match encoded
    case Unencodable => (p, Skipped)
    case UnknownEncoding => (p, Failed(ValueError(UnknownEncodingMessage)))
    case Bytes(data) =>
      if data == [] then (p, Done)
      else if cfg.baudrate == 0 then (p, Failed(ZeroDivision))
      else if FrameSeconds(cfg) <= 0.0 then PlainSend(p, encoded)
      else
        var run := EachRun(p.replies, data);
        if !run.ok then (After(p, run), Failed(SerialConnection(SendFailedMessage)))
        else
          var (flushed, p2) := Flush(After(p, run));
          if flushed then (p2, Done) else (p2, Failed(SerialConnection(SendFailedMessage)))
  }

  /** _send_payload_with_timing (key2ser/runner.py:317-355): each byte
      written on its own, a write that returns 0 or None tried again at
      most twice, anything else ending the send with SerialConnectionError,
      and a flush after the last byte. The pacing sleeps are not modelled. */
  method SendPayloadWithTiming(p: Port, encoded: Encoded, cfg: SerialConfig) returns (q: Port, o: Outcome)
    ensures (q, o) == TimedSend(p, encoded, cfg)
  {
    if encoded.Unencodable? {
      return p, Skipped;
    }
    if encoded.UnknownEncoding? {
      return p, Failed(ValueError(UnknownEncodingMessage));
    }
    var data := encoded.data;
    if data == [] {
      return p, Done;
    }
    if cfg.baudrate == 0 {
      return p, Failed(ZeroDivision);
    }
    if FrameSeconds(cfg) <= 0.0 {
      var plain := PlainSend(p, encoded);
      return plain.0, plain.1;
    }
    var ok;
    q, ok := WriteEachByte(p, data);
    if !ok {
      return q, Failed(SerialConnection(SendFailedMessage));
    }
    var flush := Flush(q);
    q := flush.1;
    o := if flush.0 then Done else Failed(SerialConnection(SendFailedMessage));
  }

  /** The loop over the bytes (key2ser/runner.py:334-348); `ok` is false
      when a byte does not go out and the send raises. */
  method WriteEachByte(p: Port, data: seq<Byte>) returns (q: Port, ok: bool)
    ensures q == After(p, EachRun(p.replies, data)) && ok == EachRun(p.replies, data).ok
  {
    q := p;
    var i := 0;
    ghost var sent: seq<PortCall> := [];
    assert data[i..] == data && Join(sent, EachRun(q.replies, data)).calls == EachRun(q.replies, data).calls;
    while i < |data|
      invariant 0 <= i <= |data|
      invariant q.log == p.log + sent && q.flushRaises == p.flushRaises
      invariant EachRun(p.replies, data) == Join(sent, EachRun(q.replies, data[i..]))
    {
      ghost var before := q;
      q, ok := WriteByteWithRetry(q, data[i]);
      if !ok {
        EachRunStops(p, sent, before.replies, data, i);
        return;
      }
      ghost var calls := ByteRun(before.replies, data[i], 0).calls;
      EachRunNext(p.replies, sent, before.replies, data, i);
      LogGrows(p.log, sent, calls);
      sent := sent + calls;
      i := i + 1;
    }
    assert data[i..] == [];
    AfterJoin(p, sent, Run([], q.replies, true));
    ok := true;
  }

  /** The loop invariant of WriteEachByte after a byte that went out. */
  lemma EachRunNext(replies: seq<Reply>, sent: seq<PortCall>, before: seq<Reply>, data: seq<Byte>, i: nat)
    requires i < |data| && EachRun(replies, data) == Join(sent, EachRun(before, data[i..]))
    requires ByteRun(before, data[i], 0).ok
    ensures var first := ByteRun(before, data[i], 0);
      EachRun(replies, data) == Join(sent + first.calls, EachRun(first.rest, data[i + 1..]))
  {
    var first := ByteRun(before, data[i], 0);
    EachRunStep(before, data, i);
    JoinJoin(sent, first.calls, EachRun(first.rest, data[i + 1..]));
  }

  /** WriteEachByte's result after a byte that did not go out. */
  lemma EachRunStops(p: Port, sent: seq<PortCall>, before: seq<Reply>, data: seq<Byte>, i: nat)
    requires i < |data| && EachRun(p.replies, data) == Join(sent, EachRun(before, data[i..]))
    requires !ByteRun(before, data[i], 0).ok
    ensures var first := ByteRun(before, data[i], 0);
      After(p, EachRun(p.replies, data)) == Port(first.rest, p.log + sent + first.calls, p.flushRaises)
      && !EachRun(p.replies, data).ok
  {
    EachRunStep(before, data, i);
    AfterJoin(p, sent, ByteRun(before, data[i], 0));
  }

  lemma EachRunStep(replies: seq<Reply>, data: seq<Byte>, i: nat)
    requires i < |data|
    ensures var first := ByteRun(replies, data[i], 0);
      EachRun(replies, data[i..]) == if first.ok then Join(first.calls, EachRun(first.rest, data[i + 1..])) else first
  {
    assert data[i..][0] == data[i] && data[i..][1..] == data[i + 1..];
  }

  lemma LogGrows(log: seq<PortCall>, sent: seq<PortCall>, calls: seq<PortCall>)
    ensures log + sent + calls == log + (sent + calls)
  {
  }

  lemma AfterJoin(p: Port, sent: seq<PortCall>, r: Run)
    ensures After(p, Join(sent, r)) == Port(r.rest, p.log + sent + r.calls, p.flushRaises)
  {
    assert p.log + (sent + r.calls) == p.log + sent + r.calls;
  }

  /** The retry loop for one byte (key2ser/runner.py:336-343): a write
      that returns 0 or None is tried again, at most three attempts in all;
      `ok` is false when the loop would raise SerialConnectionError. */
  method WriteByteWithRetry(p: Port, b: Byte) returns (q: Port, ok: bool)
    ensures var run := ByteRun(p.replies, b, 0);
      q == Port(run.rest, p.log + run.calls, p.flushRaises) && ok == run.ok
  {
    q := p;
    ghost var tried: seq<PortCall> := [];
    var attempt := 0;
    while true
      invariant attempt < 3
      invariant q.log == p.log + tried && q.flushRaises == p.flushRaises
      invariant ByteRun(p.replies, b, 0) == Join(tried, ByteRun(q.replies, b, attempt))
      decreases 3 - attempt
    {
      var call := Write(q, [b]);
      if call.0 == Wrote(1) {
        AfterJoin(p, tried, ByteRun(q.replies, b, attempt));
        return call.1, true;
      } else if IsShort(call.0) && attempt < 2 {
        JoinJoin(tried, [WriteCall([b], call.0)], ByteRun(Rest(q.replies), b, attempt + 1));
        tried := tried + [WriteCall([b], call.0)];
        q := call.1;
        attempt := attempt + 1;
      } else {
        AfterJoin(p, tried, ByteRun(q.replies, b, attempt));
        return call.1, false;
      }
    }
  }

  lemma JoinJoin(a: seq<PortCall>, b: seq<PortCall>, r: Run)
    ensures Join(a, Join(b, r)) == Join(a + b, r)
  {
    assert a + (b + r.calls) == (a + b) + r.calls;
  }

  /** Whether the modem lines are defaulted: emulation on and neither line
      configured. */
  predicate DefaultsSignals(cfg: SerialConfig) {
    cfg.emulateModemSignals && cfg.dtr.None? && cfg.rts.None?
  }

  /** The DTR level to set: true when defaulted, else the configured one. */
  function DtrToSet(cfg: SerialConfig): Option<bool> {
    if DefaultsSignals(cfg) then Some(true) else cfg.dtr
  }

  /** The RTS level to set: true when defaulted, else the configured one. */
  function RtsToSet(cfg: SerialConfig): Option<bool> {
    if DefaultsSignals(cfg) then Some(true) else cfg.rts
  }

  /** _apply_modem_signal_settings (key2ser/runner.py:583-598): setDTR
      before setRTS; a call that raises ends the settings with
      SerialConnectionError, keeping what was set before it. */
  function ApplyModemSignalSettings(lines: ModemLines, cfg: SerialConfig): (r: (ModemLines, Option<Failure>))
    ensures r.0.dtrRaises == lines.dtrRaises && r.0.rtsRaises == lines.rtsRaises
    ensures r.1.Some? <==> (DtrToSet(cfg).Some? && lines.dtrRaises) || (RtsToSet(cfg).Some? && lines.rtsRaises)
    ensures r.1.Some? ==> r.1 == Some(SerialConnection(ModemFailedMessage))
    ensures r.1.None? && DefaultsSignals(cfg) ==> r.0.dtr == Some(true) && r.0.rts == Some(true)
    ensures r.1.None? && cfg.dtr.Some? ==> r.0.dtr == cfg.dtr
    ensures r.1.None? && cfg.rts.Some? ==> r.0.rts == cfg.rts
    ensures !DefaultsSignals(cfg) && cfg.dtr.None? ==> r.0.dtr == lines.dtr
    ensures !DefaultsSignals(cfg) && cfg.rts.None? ==> r.0.rts == lines.rts
    ensures !DefaultsSignals(cfg) && cfg.dtr.None? && cfg.rts.None? ==> r == (lines, None)
    ensures DtrToSet(cfg).Some? && lines.dtrRaises ==> r.0 == lines
    ensures DtrToSet(cfg).Some? && !lines.dtrRaises ==> r.0.dtr == DtrToSet(cfg)
    ensures RtsToSet(cfg).Some? && lines.rtsRaises ==> r.0.rts == lines.rts
  {
    var dtr := DtrToSet(cfg);
    var rts := RtsToSet(cfg);
    if dtr.None? && rts.None? then (lines, None)
    else if dtr.Some? && lines.dtrRaises then (lines, Some(SerialConnection(ModemFailedMessage)))
    else
      var afterDtr := if dtr.Some? then lines.(dtr := dtr) else lines;
      if rts.Some? && lines.rtsRaises then (afterDtr, Some(SerialConnection(ModemFailedMessage)))
      else (if rts.Some? then afterDtr.(rts := rts) else afterDtr, None)
  }
}


/** What the send path guarantees about the calls it makes on the port. */
module SerialFacts {
  import opened Common
  import opened Config
  import opened Failures
  import opened Serial

  lemma {:induction false} DeliveredAppend(a: seq<PortCall>, b: seq<PortCall>)
    ensures Delivered(a + b) == Delivered(a) + Delivered(b)
    decreases |a|
  {
    if a != [] {
      assert (a + b)[0] == a[0] && (a + b)[1..] == a[1..] + b;
      DeliveredAppend(a[1..], b);
    } else {
      assert a + b == b;
    }
  }

  lemma {:induction false} WriteCountAppend(a: seq<PortCall>, b: seq<PortCall>)
    ensures WriteCount(a + b) == WriteCount(a) + WriteCount(b)
    decreases |a|
  {
    if a != [] {
      assert (a + b)[0] == a[0] && (a + b)[1..] == a[1..] + b;
      WriteCountAppend(a[1..], b);
    } else {
      assert a + b == b;
    }
  }

  /** Every call is a write of the single byte b. */
  ghost predicate WritesOf(calls: seq<PortCall>, b: Byte) {
    forall k :: 0 <= k < |calls| ==> calls[k].WriteCall? && calls[k].data == [b]
  }

  /** The retry loop for one byte makes between one and 3 - attempt writes
      of that byte, each but the last a short write; the byte went out iff
      the last write returned 1, and a failure means an answer other than
      a short write or a short write on the third attempt. */
  lemma {:induction false} ByteRunCalls(replies: seq<Reply>, b: Byte, attempt: nat)
    requires attempt < 3
    ensures var r := ByteRun(replies, b, attempt);
      1 <= |r.calls| <= 3 - attempt && WritesOf(r.calls, b)
      && (forall k :: 0 <= k < |r.calls| - 1 ==> IsShort(r.calls[k].reply))
      && (r.ok <==> r.calls[|r.calls| - 1].reply == Wrote(1))
      && (!r.ok ==> attempt + |r.calls| == 3 || !IsShort(r.calls[|r.calls| - 1].reply))
    decreases 3 - attempt
  {
    var reply := Answer(replies, 1);
    if reply != Wrote(1) && IsShort(reply) && attempt < 2 {
      ByteRunCalls(Rest(replies), b, attempt + 1);
    }
  }

  /** A single byte's run delivers that byte exactly when it succeeds. */
  lemma {:induction false} ByteRunDelivers(replies: seq<Reply>, b: Byte, attempt: nat)
    requires attempt < 3
    ensures var r := ByteRun(replies, b, attempt);
      Delivered(r.calls) == (if r.ok then [b] else []) && WriteCount(r.calls) == |r.calls|
    decreases 3 - attempt
  {
    var reply := Answer(replies, 1);
    var call := WriteCall([b], reply);
    if reply != Wrote(1) && IsShort(reply) && attempt < 2 {
      var r := ByteRun(Rest(replies), b, attempt + 1);
      ByteRunDelivers(Rest(replies), b, attempt + 1);
      DeliveredAppend([call], r.calls);
      WriteCountAppend([call], r.calls);
    }
  }

  /** Sending each byte makes single-byte writes only, at most three per
      byte. */
  lemma {:induction false} EachRunCalls(replies: seq<Reply>, data: seq<Byte>)
    ensures var r := EachRun(replies, data);
      (forall k :: 0 <= k < |r.calls| ==> r.calls[k].WriteCall? && |r.calls[k].data| == 1)
      && WriteCount(r.calls) == |r.calls| <= 3 * |data|
    decreases |data|
  {
    if data != [] {
      var first := ByteRun(replies, data[0], 0);
      ByteRunCalls(replies, data[0], 0);
      ByteRunDelivers(replies, data[0], 0);
      if first.ok {
        var rest := EachRun(first.rest, data[1..]);
        EachRunCalls(first.rest, data[1..]);
        WriteCountAppend(first.calls, rest.calls);
      }
    }
  }

  /** The bytes go out whole and in order; a failure stops the send with a
      strict prefix of the data delivered. */
  lemma {:induction false} EachRunDelivers(replies: seq<Reply>, data: seq<Byte>)
    ensures var r := EachRun(replies, data);
      (r.ok ==> Delivered(r.calls) == data)
      && (!r.ok ==> |Delivered(r.calls)| < |data| && Delivered(r.calls) == data[..|Delivered(r.calls)|])
    decreases |data|
  {
    if data != [] {
      var first := ByteRun(replies, data[0], 0);
      ByteRunDelivers(replies, data[0], 0);
      if first.ok {
        var rest := EachRun(first.rest, data[1..]);
        EachRunDelivers(first.rest, data[1..]);
        DeliveredAppend(first.calls, rest.calls);
        assert data == [data[0]] + data[1..];
      }
    }
  }

  /** _send_payload_with_timing with a positive frame time: the port sees
      only single-byte writes, at most three per byte; on success the bytes
      arrive whole and in order and a flush is the last call; any failure is
      SerialConnectionError, with a prefix of the data delivered (all of it
      when only the flush raised). */
  lemma TimedSendDelivers(p: Port, data: seq<Byte>, cfg: SerialConfig)
    requires data != [] && cfg.baudrate != 0 && FrameSeconds(cfg) > 0.0
    ensures var r := TimedSend(p, Bytes(data), cfg);
      exists calls: seq<PortCall> ::
        r.0.log == p.log + calls
        && (forall k :: 0 <= k < |calls| ==> calls[k].WriteCall? ==> |calls[k].data| == 1)
        && WriteCount(calls) <= 3 * |data|
        && (r.1 == Done ==> Delivered(calls) == data && calls[|calls| - 1] == FlushCall)
        && (r.1 != Done ==> r.1 == Failed(SerialConnection(SendFailedMessage)) && Delivered(calls) <= data)
  {
    var run := EachRun(p.replies, data);
    var r := TimedSend(p, Bytes(data), cfg);
    EachRunCalls(p.replies, data);
    EachRunDelivers(p.replies, data);
    if run.ok {
      var calls := run.calls + [FlushCall];
      DeliveredAppend(run.calls, [FlushCall]);
      WriteCountAppend(run.calls, [FlushCall]);
      assert Delivered([FlushCall]) == [] && WriteCount([FlushCall]) == 0;
      assert r.0.log == p.log + calls;
      assert forall k :: 0 <= k < |calls| ==> calls[k].WriteCall? ==> |calls[k].data| == 1;
    } else {
      assert r.0.log == p.log + run.calls;
      assert Delivered(run.calls) <= data;
    }
  }

  /** The plain send does not look at the count a write returns: a write
      that accepted nothing still ends normally after the flush, with
      nothing delivered, where the timed send would retry it. */
  lemma PlainSendIgnoresCount(p: Port, data: seq<Byte>)
    requires data != [] && !p.flushRaises && IsShort(Answer(p.replies, |data|))
    ensures PlainSend(p, Bytes(data)).1 == Done
    ensures var q := PlainSend(p, Bytes(data)).0;
      |q.log| == |p.log| + 2 && Delivered(q.log[|p.log|..]) == []
  {
    var q := PlainSend(p, Bytes(data)).0;
    assert q.log[|p.log|..] == [WriteCall(data, Answer(p.replies, |data|)), FlushCall];
    assert [WriteCall(data, Answer(p.replies, |data|)), FlushCall][1..] == [FlushCall];
    assert [FlushCall][1..] == [];
  }

  /** A port that accepts every write gets the whole payload in one write,
      then a flush. */
  lemma PlainSendAcceptingPort(p: Port, data: seq<Byte>)
    requires p.replies == [] && !p.flushRaises
    ensures PlainSend(p, Bytes(data)).1 == Done
    ensures var q := PlainSend(p, Bytes(data)).0;
      |q.log| == |p.log| + 2 && Delivered(q.log[|p.log|..]) == data && WriteCount(q.log[|p.log|..]) == 1
  {
    var q := PlainSend(p, Bytes(data)).0;
    assert q.log[|p.log|..] == [WriteCall(data, Wrote(|data|)), FlushCall];
    assert [WriteCall(data, Wrote(|data|)), FlushCall][1..] == [FlushCall];
    assert [FlushCall][1..] == [];
  }

  /** One accepted single-byte write per byte. */
  function Singles(data: seq<Byte>): (r: seq<PortCall>)
    ensures |r| == |data|
    ensures forall k :: 0 <= k < |data| ==> r[k] == WriteCall([data[k]], Wrote(1))
  {
    if data == [] then [] else [WriteCall([data[0]], Wrote(1))] + Singles(data[1..])
  }

  /** A port that accepts every write gets each byte in a write of its own. */
  lemma {:induction false} AcceptingPortWritesEach(data: seq<Byte>)
    ensures EachRun([], data) == Run(Singles(data), [], true)
    decreases |data|
  {
    if data != [] {
      assert ByteRun([], data[0], 0) == Run([WriteCall([data[0]], Wrote(1))], [], true);
      AcceptingPortWritesEach(data[1..]);
    }
  }

  /** tests/test_runner.py:952-983: "ab" goes out as b"a", b"b", then a flush. */
  lemma TwoBytesExample(p: Port, cfg: SerialConfig)
    requires p.replies == [] && !p.flushRaises
    requires cfg.baudrate != 0 && FrameSeconds(cfg) > 0.0
    ensures TimedSend(p, Bytes([0x61, 0x62]), cfg)
      == (Port([], p.log + [WriteCall([0x61], Wrote(1)), WriteCall([0x62], Wrote(1)), FlushCall], false), Done)
  {
    AcceptingPortWritesEach([0x61, 0x62]);
    assert Singles([0x61, 0x62]) == [WriteCall([0x61], Wrote(1)), WriteCall([0x62], Wrote(1))];
    assert p.log + Singles([0x61, 0x62]) + [FlushCall]
      == p.log + [WriteCall([0x61], Wrote(1)), WriteCall([0x62], Wrote(1)), FlushCall];
  }

  /** tests/test_runner.py:986-1019: a first write that returns 0 is tried
      again and the byte then goes out once. */
  lemma ShortWriteRetried(p: Port, b: Byte, cfg: SerialConfig)
    requires p.replies == [Wrote(0)] && !p.flushRaises
    requires cfg.baudrate != 0 && FrameSeconds(cfg) > 0.0
    ensures TimedSend(p, Bytes([b]), cfg)
      == (Port([], p.log + [WriteCall([b], Wrote(0)), WriteCall([b], Wrote(1)), FlushCall], false), Done)
  {
    var second := ByteRun([], b, 1);
    assert second == Run([WriteCall([b], Wrote(1))], [], true);
    assert ByteRun([Wrote(0)], b, 0) == Join([WriteCall([b], Wrote(0))], second);
    assert EachRun([Wrote(0)], [b]) == Run([WriteCall([b], Wrote(0)), WriteCall([b], Wrote(1))], [], true);
    assert p.log + [WriteCall([b], Wrote(0)), WriteCall([b], Wrote(1))] + [FlushCall]
      == p.log + [WriteCall([b], Wrote(0)), WriteCall([b], Wrote(1)), FlushCall];
  }

  /** Three short writes in a row end the send: no fourth attempt and no
      flush. */
  lemma ThirdShortWriteFails(p: Port, b: Byte, rest: seq<Byte>, cfg: SerialConfig)
    requires |p.replies| >= 3 && IsShort(p.replies[0]) && IsShort(p.replies[1]) && IsShort(p.replies[2])
    requires cfg.baudrate != 0 && FrameSeconds(cfg) > 0.0
    ensures TimedSend(p, Bytes([b] + rest), cfg).1 == Failed(SerialConnection(SendFailedMessage))
    ensures TimedSend(p, Bytes([b] + rest), cfg).0.log
      == p.log + [WriteCall([b], p.replies[0]), WriteCall([b], p.replies[1]), WriteCall([b], p.replies[2])]
  {
    var s := p.replies;
    var third := ByteRun(s[3..], b, 2);
    assert Rest(s) == s[1..] && Rest(s[1..]) == s[2..] && Rest(s[2..]) == s[3..];
    assert ByteRun(s[2..], b, 2) == Run([WriteCall([b], s[2])], s[3..], false);
    var run := ByteRun(s, b, 0);
    assert run == Run([WriteCall([b], s[0]), WriteCall([b], s[1]), WriteCall([b], s[2])], s[3..], false);
    assert ([b] + rest)[0] == b;
    assert EachRun(s, [b] + rest) == run;
  }

  /** A write that raises, or returns a count other than 0 and 1, is not
      tried again. */
  lemma OtherReplyNotRetried(p: Port, b: Byte, rest: seq<Byte>, cfg: SerialConfig)
    requires p.replies != [] && p.replies[0] != Wrote(1) && !IsShort(p.replies[0])
    requires cfg.baudrate != 0 && FrameSeconds(cfg) > 0.0
    ensures TimedSend(p, Bytes([b] + rest), cfg).1 == Failed(SerialConnection(SendFailedMessage))
    ensures TimedSend(p, Bytes([b] + rest), cfg).0.log == p.log + [WriteCall([b], p.replies[0])]
  {
    assert ([b] + rest)[0] == b;
    assert EachRun(p.replies, [b] + rest) == ByteRun(p.replies, b, 0);
  }

  /** With 8 data bits and one stop bit a byte takes ten bit times without
      parity and eleven with it. */
  lemma FrameBits(cfg: SerialConfig)
    requires cfg.baudrate > 0 && cfg.bytesize == 8 && cfg.stopbits == 1.0
    ensures cfg.parity == "N" ==> FrameSeconds(cfg) == 10.0 / cfg.baudrate as real
    ensures cfg.parity != "N" ==> FrameSeconds(cfg) == 11.0 / cfg.baudrate as real
  {
    var r := FrameSeconds(cfg);
    var n := cfg.baudrate as real;
    assert r * n == (9 + ParityBits(cfg.parity)) as real + 1.0;
  }

  function ModemConfig(emulate: bool, dtr: Option<bool>, rts: Option<bool>): SerialConfig {
    SerialConfig("/dev/ttyUSB0", 9600, 1.0, 8, "N", 1.0, emulate, dtr, rts, false)
  }

  /** tests/test_runner.py:615-660: with emulation on and neither line
      configured, both lines go high. */
  lemma EmulatedSignalsExample()
    ensures ApplyModemSignalSettings(ModemLines(None, None, false, false), ModemConfig(true, None, None))
         == (ModemLines(Some(true), Some(true), false, false), None)
  {
  }

  /** tests/test_runner.py:663-707: explicit levels are set as configured. */
  lemma ExplicitSignalsExample()
    ensures ApplyModemSignalSettings(ModemLines(None, None, false, false), ModemConfig(false, Some(false), Some(true)))
         == (ModemLines(Some(false), Some(true), false, false), None)
  {
  }

  /** setDTR succeeds and setRTS raises: DTR stays set, RTS is untouched,
      and the error is SerialConnectionError. */
  lemma DtrKeptWhenRtsFails(lines: ModemLines, cfg: SerialConfig)
    requires DtrToSet(cfg).Some? && RtsToSet(cfg).Some? && !lines.dtrRaises && lines.rtsRaises
    ensures ApplyModemSignalSettings(lines, cfg)
         == (lines.(dtr := DtrToSet(cfg)), Some(SerialConnection(ModemFailedMessage)))
  {
  }
}
