/** The send-mode state machine of key2ser/runner.py (lines 26-37,
    373-431, 626-752) as functions on the value of a BufferState: what a
    key-down, a key-up, the idle check and the duplicate filter do to the
    buffer and which payload they produce. The class in relay.dfy updates
    its fields in place and is proved to follow these functions. */
module Scheduler {
  import opened Common
  import opened Config
  import opened Failures
  import opened Serial

  /** The fields of a BufferState (key2ser/runner.py:26-37). */
  datatype Buffer = Buffer(
    text: string,
    shiftKeys: set<string>,
    kanaMode: bool,
    lastInputTime: Option<real>,
    lastSentPayload: Option<string>,
    lastSentTime: Option<real>)

  /** BufferState() with its defaults. */
  const Initial: Buffer := Buffer("", {}, false, None, None, None)

  /** The keymap module: the shift and kana-toggle keycodes and
      map_keycode(keycode, shift, kana=...). It is not part of this model,
      so it is a parameter; `AgreesWithTests` holds the facts its tests
      fix. */
  datatype KeyMap = KeyMap(
    shiftKeys: set<string>,
    kanaToggleKeys: set<string>,
    mapKey: (string, bool, bool) -> Option<string>)

  /** tests/test_keymap.py:4-15. */
  predicate AgreesWithTests(km: KeyMap) {
    km.mapKey("KEY_A", false, false) == Some("a")
    && km.mapKey("KEY_A", true, false) == Some("A")
    && km.mapKey("KEY_1", false, false) == Some("1")
    && km.mapKey("KEY_1", true, false) == Some("!")
    && km.mapKey("KEY_UNKNOWN", false, false) == None
  }

  const Backspace: string := "KEY_BACKSPACE"

  /** The result of a handler: the new buffer and the payload to send. */
  datatype Step = Step(state: Buffer, payload: Option<string>)

  /** BufferState.shift_active. */
  predicate ShiftActive(s: Buffer) {
    s.shiftKeys != {}
  }

  /** The text a key adds, when the keymap gives it a non-empty string
      (Python treats "" and None alike there). */
  function Mapped(km: KeyMap, keycode: string, s: Buffer): (r: Option<string>)
    ensures r.Some? ==> r.value != ""
    ensures r.Some? <==> km.mapKey(keycode, ShiftActive(s), s.kanaMode).Some?
                         && km.mapKey(keycode, ShiftActive(s), s.kanaMode).value != ""
  {
    match km.mapKey(keycode, ShiftActive(s), s.kanaMode)
    case Some(m) => if m == "" then None else Some(m)
    case None => None
  }

  /** _reset_buffer (key2ser/runner.py:428-431). */
  function Reset(s: Buffer): (r: Buffer)
    ensures r.text == "" && r.lastInputTime.None?
    ensures r.(text := s.text, lastInputTime := s.lastInputTime) == s
  {
    s.(text := "", lastInputTime := None)
  }

  /** str[:-1]. */
  function DropLast(t: string): (r: string)
    ensures t == [] ==> r == []
    ensures t != [] ==> r + [t[|t| - 1]] == t
  {
    if t == [] then [] else t[..|t| - 1]
  }

  /** _handle_key_down (key2ser/runner.py:626-666), with `now` the clock
      reading of the event. */
  function KeyDown(s: Buffer, keycode: string, km: KeyMap, lineEnd: string,
                   terminators: set<string>, sendOnEnter: bool, mode: SendMode, now: real): Step
  {
    if keycode in km.shiftKeys then Step(s.(shiftKeys := s.shiftKeys + {keycode}), None)
    else if keycode in km.kanaToggleKeys then Step(s.(kanaMode := !s.kanaMode), None)
    else if keycode in terminators && mode == OnEnter then
      Step(Reset(s), if s.text != "" || sendOnEnter then Some(s.text + lineEnd) else None)
    else if keycode == Backspace then
      if mode == PerChar then Step(s, None)
      else Step(s.(text := DropLast(s.text),
                   lastInputTime := if mode == IdleTimeout then Some(now) else s.lastInputTime), None)
    else match Mapped(km, keycode, s)
      case None => Step(s, None)
      case Some(m) =>
        if mode == PerChar then Step(s, Some(m))
        else Step(s.(text := s.text + m,
                     lastInputTime := if mode == IdleTimeout then Some(now) else s.lastInputTime), None)
  }

  /** _handle_key_up (key2ser/runner.py:670-673). */
  function KeyUp(s: Buffer, keycode: string, km: KeyMap): (r: Buffer)
    ensures keycode in km.shiftKeys ==> r == s.(shiftKeys := s.shiftKeys - {keycode})
    ensures keycode !in km.shiftKeys ==> r == s
  {
    if keycode in km.shiftKeys then s.(shiftKeys := s.shiftKeys - {keycode}) else s
  }

  /** _maybe_flush_idle_timeout (key2ser/runner.py:677-691). */
  function IdleFlush(s: Buffer, lineEnd: string, idleTimeout: real, now: real): (r: Step)
    ensures r.payload.None? <==> s.text == "" || s.lastInputTime.None? || now - s.lastInputTime.value < idleTimeout
    ensures r.payload.Some? ==> r.payload.value == s.text + lineEnd && r.state == Reset(s)
    ensures r.payload.None? ==> r.state == s
  {
    if s.text == "" || s.lastInputTime.None? then Step(s, None)
    else if now - s.lastInputTime.value < idleTimeout then Step(s, None)
    else Step(Reset(s), Some(s.text + lineEnd))
  }

  /** _should_suppress_duplicate (key2ser/runner.py:373-387). */
  predicate ShouldSuppressDuplicate(s: Buffer, payload: string, window: real, now: real) {
    if window <= 0.0 then false
    else if s.lastSentPayload.None? || s.lastSentTime.None? then false
    else if payload != s.lastSentPayload.value then false
    else now - s.lastSentTime.value <= window
  }

  /** The output section and serial settings the send path reads, and the
      codec as a function from payload to bytes. */
  datatype Output = Output(
    lineEnd: string,
    terminators: set<string>,
    sendOnEnter: bool,
    mode: SendMode,
    window: real,
    serial: SerialConfig,
    encode: string -> Encoded)

  /** The outcome of a send with the duplicate filter: the buffer, the port
      and how the send ended (Done also when it was suppressed). */
  datatype Sent = Sent(state: Buffer, port: Port, outcome: Outcome)

  /** _send_payload_with_dedup (key2ser/runner.py:391-424): no filtering in
      per_char mode; the last payload and time are recorded after the send,
      also when it was skipped for an unencodable payload, and not when the
      send raised. */
  function DedupSend(s: Buffer, port: Port, payload: string, out: Output, now: real): Sent
  {
    if out.mode != PerChar && ShouldSuppressDuplicate(s, payload, out.window, now) then Sent(s, port, Done)
    else
      var r := if out.serial.emulateTiming then TimedSend(port, out.encode(payload), out.serial)
               else PlainSend(port, out.encode(payload));
      if r.1.Failed? then Sent(s, r.0, r.1)
      else Sent(s.(lastSentPayload := Some(payload), lastSentTime := Some(now)), r.0, r.1)
  }

  /** _send_payload_if_present (key2ser/runner.py:695-715). */
  function SendIfPresent(s: Buffer, port: Port, payload: Option<string>, out: Output, now: real): (r: Sent)
    ensures payload.None? ==> r == Sent(s, port, Done)
  {
    if payload.None? then Sent(s, port, Done) else DedupSend(s, port, payload.value, out, now)
  }

  /** Key states as evdev reports them. */
  datatype KeyState = KeyDownState | KeyUpState | KeyHoldState

  /** An input event: its type, and for EV_KEY events the key state and
      the keycode or keycodes (_iter_keycodes turns a single one into a
      one-element list). */
  datatype Event = Event(eventType: int, keystate: KeyState, keycodes: seq<string>)

  const EvKey: int := 1

  /** The key-down loop of _process_key_event over the keycodes: handle,
      send, stop at the first exception. */
  function DownAll(s: Buffer, port: Port, codes: seq<string>, km: KeyMap, out: Output, now: real): (r: Sent)
    ensures codes == [] ==> r == Sent(s, port, Done)
    decreases |codes|
  {
    if codes == [] then Sent(s, port, Done)
    else
      var step := KeyDown(s, codes[0], km, out.lineEnd, out.terminators, out.sendOnEnter, out.mode, now);
      var sent := SendIfPresent(step.state, port, step.payload, out, now);
      if sent.outcome.Failed? then sent else DownAll(sent.state, sent.port, codes[1..], km, out, now)
  }

  /** The key-up loop of _process_key_event. */
  function UpAll(s: Buffer, codes: seq<string>, km: KeyMap): (r: Buffer)
    ensures r.text == s.text && r.kanaMode == s.kanaMode && r.lastInputTime == s.lastInputTime
    ensures r.lastSentPayload == s.lastSentPayload && r.lastSentTime == s.lastSentTime
    ensures r.shiftKeys == s.shiftKeys - (set c | c in codes && c in km.shiftKeys)
    decreases |codes|
  {
    if codes == [] then s else UpAll(KeyUp(s, codes[0], km), codes[1..], km)
  }

  /** _process_key_event (key2ser/runner.py:719-752). */
  function ProcessKeyEvent(s: Buffer, port: Port, e: Event, km: KeyMap, out: Output, now: real): Sent
  {
    if e.eventType != EvKey then Sent(s, port, Done)
    else if e.keystate == KeyDownState then DownAll(s, port, e.keycodes, km, out, now)
    else if e.keystate == KeyUpState then Sent(UpAll(s, e.keycodes, km), port, Done)
    else Sent(s, port, Done)
  }
}

/** What the state machine promises, stated over the functions above. */
module SchedulerFacts {
  import opened Common
  import opened Config
  import opened Failures
  import opened Serial
  import opened Scheduler

  /** A key that is neither a shift nor a kana-toggle key. */
  predicate Ordinary(km: KeyMap, keycode: string) {
    keycode !in km.shiftKeys && keycode !in km.kanaToggleKeys
  }

  /** In on_enter mode a terminator sends the buffer and the line end when
      the buffer holds text or send_on_enter is set, and nothing otherwise;
      either way the buffer is cleared and the idle clock stopped, and
      nothing else changes. */
  lemma TerminatorInOnEnter(s: Buffer, k: string, km: KeyMap, lineEnd: string, terminators: set<string>,
                            sendOnEnter: bool, now: real)
    requires Ordinary(km, k) && k in terminators
    ensures var r := KeyDown(s, k, km, lineEnd, terminators, sendOnEnter, OnEnter, now);
      r.state == s.(text := "", lastInputTime := None)
      && (r.payload.Some? <==> s.text != "" || sendOnEnter)
      && (r.payload.Some? ==> r.payload.value == s.text + lineEnd)
  {
  }

  /** Outside on_enter mode the terminator set plays no part. */
  lemma TerminatorsOnlyInOnEnter(s: Buffer, k: string, km: KeyMap, lineEnd: string, terminators: set<string>,
                                 sendOnEnter: bool, mode: SendMode, now: real)
    requires mode != OnEnter
    ensures KeyDown(s, k, km, lineEnd, terminators, sendOnEnter, mode, now)
         == KeyDown(s, k, km, lineEnd, {}, sendOnEnter, mode, now)
  {
  }

  /** A key that the terminator and backspace branches do not take. */
  predicate Printable(km: KeyMap, k: string, terminators: set<string>, mode: SendMode) {
    Ordinary(km, k) && !(k in terminators && mode == OnEnter) && k != Backspace
  }

  /** A mapped key is sent at once in per_char mode, leaving the buffer as
      it was; in the other modes it is appended to the text, and
      idle_timeout also restarts the idle clock. */
  lemma MappedKey(s: Buffer, k: string, km: KeyMap, lineEnd: string, terminators: set<string>,
                  sendOnEnter: bool, mode: SendMode, now: real)
    requires Printable(km, k, terminators, mode) && Mapped(km, k, s).Some?
    ensures var r := KeyDown(s, k, km, lineEnd, terminators, sendOnEnter, mode, now);
      var m := Mapped(km, k, s).value;
      (mode == PerChar ==> r == Step(s, Some(m)))
      && (mode != PerChar ==>
            (r.payload.None? && r.state.text == s.text + m
             && r.state.(text := s.text, lastInputTime := s.lastInputTime) == s))
      && (mode == IdleTimeout ==> r.state.lastInputTime == Some(now))
      && (mode == OnEnter ==> r.state.lastInputTime == s.lastInputTime)
  {
  }

  /** A key the keymap does not know changes nothing. */
  lemma UnmappedKeyIgnored(s: Buffer, k: string, km: KeyMap, lineEnd: string, terminators: set<string>,
                           sendOnEnter: bool, mode: SendMode, now: real)
    requires Printable(km, k, terminators, mode) && Mapped(km, k, s).None?
    ensures KeyDown(s, k, km, lineEnd, terminators, sendOnEnter, mode, now) == Step(s, None)
  {
  }

  /** Shift, kana toggle and backspace never send: shift is remembered,
      kana mode flips, and backspace drops the last buffered character
      except in per_char mode, in idle_timeout mode also restarting the
      idle clock at `now`. */
  lemma SilentKeys(s: Buffer, k: string, km: KeyMap, lineEnd: string, terminators: set<string>,
                   sendOnEnter: bool, mode: SendMode, now: real)
    ensures var r := KeyDown(s, k, km, lineEnd, terminators, sendOnEnter, mode, now);
      (k in km.shiftKeys ==> r == Step(s.(shiftKeys := s.shiftKeys + {k}), None))
      && (k !in km.shiftKeys && k in km.kanaToggleKeys ==> r == Step(s.(kanaMode := !s.kanaMode), None))
      && (Ordinary(km, k) && k == Backspace && !(k in terminators && mode == OnEnter) ==>
            r.payload.None?
            && (mode == PerChar ==> r.state == s)
            && (mode != PerChar ==>
                  && r.state.text + (if s.text == "" then "" else [s.text[|s.text| - 1]]) == s.text
                  && r.state.lastInputTime == (if mode == IdleTimeout then Some(now) else s.lastInputTime)
                  && r.state.(text := s.text, lastInputTime := s.lastInputTime) == s))
  {
    if Ordinary(km, k) && k == Backspace && !(k in terminators && mode == OnEnter) && mode != PerChar && s.text != "" {
      assert DropLast(s.text) + [s.text[|s.text| - 1]] == s.text;
    }
  }

  /** A payload comes only from a terminator in on_enter mode or from a
      mapped key in per_char mode. */
  lemma PayloadSources(s: Buffer, k: string, km: KeyMap, lineEnd: string, terminators: set<string>,
                       sendOnEnter: bool, mode: SendMode, now: real)
    requires KeyDown(s, k, km, lineEnd, terminators, sendOnEnter, mode, now).payload.Some?
    ensures Ordinary(km, k)
    ensures (k in terminators && mode == OnEnter) || (mode == PerChar && k != Backspace && Mapped(km, k, s).Some?)
  {
  }

  /** Pressing the kana toggle twice restores the buffer. */
  lemma KanaToggleTwice(s: Buffer, k: string, km: KeyMap, lineEnd: string, terminators: set<string>,
                        sendOnEnter: bool, mode: SendMode, now: real)
    requires k !in km.shiftKeys && k in km.kanaToggleKeys
    ensures var once := KeyDown(s, k, km, lineEnd, terminators, sendOnEnter, mode, now).state;
      KeyDown(once, k, km, lineEnd, terminators, sendOnEnter, mode, now) == Step(s, None)
  {
  }

  /** Pressing and releasing a shift key that was not held restores the
      buffer. */
  lemma ShiftPressRelease(s: Buffer, k: string, km: KeyMap, lineEnd: string, terminators: set<string>,
                          sendOnEnter: bool, mode: SendMode, now: real)
    requires k in km.shiftKeys && k !in s.shiftKeys
    ensures KeyUp(KeyDown(s, k, km, lineEnd, terminators, sendOnEnter, mode, now).state, k, km) == s
  {
    assert s.shiftKeys + {k} - {k} == s.shiftKeys;
  }

  /** After an idle flush that sent something, a second check sends
      nothing. */
  lemma IdleFlushOnce(s: Buffer, lineEnd: string, idleTimeout: real, now: real, later: real)
    requires IdleFlush(s, lineEnd, idleTimeout, now).payload.Some?
    ensures IdleFlush(IdleFlush(s, lineEnd, idleTimeout, now).state, lineEnd, idleTimeout, later) == Step(Reset(s), None)
  {
  }

  /** Once the idle timeout has passed it stays passed: a later check
      flushes the same payload. */
  lemma IdleFlushStaysDue(s: Buffer, lineEnd: string, idleTimeout: real, now: real, later: real)
    requires IdleFlush(s, lineEnd, idleTimeout, now).payload.Some? && now <= later
    ensures IdleFlush(s, lineEnd, idleTimeout, later) == IdleFlush(s, lineEnd, idleTimeout, now)
  {
  }

  /** The duplicate filter holds back a payload iff the window is positive,
      a previous send is recorded, the payload equals it, and no more than
      the window has passed since (the bound included). */
  lemma SuppressIff(s: Buffer, payload: string, window: real, now: real)
    ensures ShouldSuppressDuplicate(s, payload, window, now) <==>
      window > 0.0 && s.lastSentPayload == Some(payload) && s.lastSentTime.Some?
      && now - s.lastSentTime.value <= window
  {
  }

  /** A suppressed payload leaves the buffer and the port untouched. */
  lemma SuppressedLeavesAll(s: Buffer, port: Port, payload: string, out: Output, now: real)
    requires out.mode != PerChar && ShouldSuppressDuplicate(s, payload, out.window, now)
    ensures DedupSend(s, port, payload, out, now) == Sent(s, port, Done)
  {
  }

  /** A send that does not raise records the payload and the time, and
      changes nothing else in the buffer; one that raises records nothing. */
  lemma SendRecords(s: Buffer, port: Port, payload: string, out: Output, now: real)
    requires !(out.mode != PerChar && ShouldSuppressDuplicate(s, payload, out.window, now))
    ensures var r := DedupSend(s, port, payload, out, now);
      (!r.outcome.Failed? ==> r.state == s.(lastSentPayload := Some(payload), lastSentTime := Some(now)))
      && (r.outcome.Failed? ==> r.state == s)
      && r.port == (if out.serial.emulateTiming then TimedSend(port, out.encode(payload), out.serial)
                    else PlainSend(port, out.encode(payload))).0
  {
  }

  /** per_char mode is never filtered: a payload is sent even when it
      equals the previous one inside the window. */
  lemma PerCharNeverSuppressed(s: Buffer, port: Port, payload: string, out: Output, now: real)
    requires out.mode == PerChar
    ensures DedupSend(s, port, payload, out, now).port
      == (if out.serial.emulateTiming then TimedSend(port, out.encode(payload), out.serial)
          else PlainSend(port, out.encode(payload))).0
  {
  }

  /** Whether every key in `codes` is an ordinary key the keymap maps to
      text under the buffer's shift and kana state. */
  ghost predicate AllPrintable(km: KeyMap, codes: seq<string>, s: Buffer, terminators: set<string>, mode: SendMode) {
    forall i :: 0 <= i < |codes| ==> Printable(km, codes[i], terminators, mode) && Mapped(km, codes[i], s).Some?
  }

  /** The text those keys type. */
  ghost function Typed(km: KeyMap, codes: seq<string>, s: Buffer, terminators: set<string>, mode: SendMode): string
    requires AllPrintable(km, codes, s, terminators, mode)
    decreases |codes|
  {
    if codes == [] then "" else Mapped(km, codes[0], s).value + Typed(km, codes[1..], s, terminators, mode)
  }

  /** The keymap sees the same shift and kana state. */
  lemma MappedSameModifiers(km: KeyMap, k: string, s: Buffer, t: Buffer)
    requires s.shiftKeys == t.shiftKeys && s.kanaMode == t.kanaMode
    ensures Mapped(km, k, s) == Mapped(km, k, t)
  {
  }

  /** In on_enter mode, keys that map to text only extend the buffer, in
      order, and send nothing. */
  lemma {:induction false} TypingAppends(s: Buffer, port: Port, codes: seq<string>, km: KeyMap, out: Output, now: real)
    requires out.mode == OnEnter && AllPrintable(km, codes, s, out.terminators, out.mode)
    ensures DownAll(s, port, codes, km, out, now)
      == Sent(s.(text := s.text + Typed(km, codes, s, out.terminators, out.mode)), port, Done)
    decreases |codes|
  {
    if codes != [] {
      var m := Mapped(km, codes[0], s).value;
      var s1 := s.(text := s.text + m);
      MappedKey(s, codes[0], km, out.lineEnd, out.terminators, out.sendOnEnter, out.mode, now);
      assert AllPrintable(km, codes[1..], s1, out.terminators, out.mode) by {
        forall i | 0 <= i < |codes[1..]|
          ensures Printable(km, codes[1..][i], out.terminators, out.mode) && Mapped(km, codes[1..][i], s1).Some?
        {
          MappedSameModifiers(km, codes[1..][i], s, s1);
          assert codes[1..][i] == codes[i + 1];
        }
      }
      TypingAppends(s1, port, codes[1..], km, out, now);
      TypedSameModifiers(km, codes[1..], s, s1, out.terminators, out.mode);
      assert s.text + m + Typed(km, codes[1..], s, out.terminators, out.mode)
          == s.text + Typed(km, codes, s, out.terminators, out.mode);
    }
  }

  lemma {:induction false} TypedSameModifiers(km: KeyMap, codes: seq<string>, s: Buffer, t: Buffer,
                                              terminators: set<string>, mode: SendMode)
    requires s.shiftKeys == t.shiftKeys && s.kanaMode == t.kanaMode
    requires AllPrintable(km, codes, s, terminators, mode)
    ensures AllPrintable(km, codes, t, terminators, mode)
    ensures Typed(km, codes, s, terminators, mode) == Typed(km, codes, t, terminators, mode)
    decreases |codes|
  {
    forall i | 0 <= i < |codes| ensures Mapped(km, codes[i], t).Some? {
      MappedSameModifiers(km, codes[i], s, t);
    }
    if codes != [] {
      MappedSameModifiers(km, codes[0], s, t);
      assert AllPrintable(km, codes[1..], s, terminators, mode) by {
        forall i | 0 <= i < |codes[1..]| ensures Printable(km, codes[1..][i], terminators, mode) && Mapped(km, codes[1..][i], s).Some? {
          assert codes[1..][i] == codes[i + 1];
        }
      }
      TypedSameModifiers(km, codes[1..], s, t, terminators, mode);
    }
  }

  /** tests/test_runner.py:57-72: KEY_A in per_char mode sends "a" and
      leaves the buffer empty. */
  lemma PerCharExample(km: KeyMap, now: real)
    requires AgreesWithTests(km) && Ordinary(km, "KEY_A")
    ensures KeyDown(Initial, "KEY_A", km, "\r\n", DefaultTerminatorKeys, true, PerChar, now) == Step(Initial, Some("a"))
  {
    assert Mapped(km, "KEY_A", Initial) == Some("a");
  }

  /** tests/test_runner.py:75-111: KEY_A at 10.0 in idle_timeout mode is
      buffered; with a 0.5 s timeout nothing is sent at 10.4 and "a\r\n"
      at 10.6, which empties the buffer. */
  lemma IdleTimeoutExample(km: KeyMap)
    requires AgreesWithTests(km) && Ordinary(km, "KEY_A")
    ensures var typed := KeyDown(Initial, "KEY_A", km, "\r\n", DefaultTerminatorKeys, true, IdleTimeout, 10.0);
      typed.payload.None? && typed.state.text == "a" && typed.state.lastInputTime == Some(10.0)
      && IdleFlush(typed.state, "\r\n", 0.5, 10.4).payload.None?
      && IdleFlush(typed.state, "\r\n", 0.5, 10.6).payload == Some("a\r\n")
      && IdleFlush(typed.state, "\r\n", 0.5, 10.6).state.text == ""
      && IdleFlush(typed.state, "\r\n", 0.5, 10.6).state.lastInputTime.None?
  {
    assert Mapped(km, "KEY_A", Initial) == Some("a");
    assert "KEY_A" != Backspace;
    var typed := KeyDown(Initial, "KEY_A", km, "\r\n", DefaultTerminatorKeys, true, IdleTimeout, 10.0);
    assert typed.state == Initial.(text := "a", lastInputTime := Some(10.0));
    assert typed.state.text + "\r\n" == "a\r\n";
  }

  /** tests/test_runner.py:114-140: KEY_A then KEY_ENTER in on_enter mode
      sends "a\r\n". */
  lemma OnEnterExample(km: KeyMap, now: real)
    requires AgreesWithTests(km) && Ordinary(km, "KEY_A") && Ordinary(km, "KEY_ENTER")
    ensures var typed := KeyDown(Initial, "KEY_A", km, "\r\n", DefaultTerminatorKeys, true, OnEnter, now);
      typed.payload.None? && typed.state.text == "a"
      && KeyDown(typed.state, "KEY_ENTER", km, "\r\n", DefaultTerminatorKeys, true, OnEnter, now).payload == Some("a\r\n")
  {
    assert Mapped(km, "KEY_A", Initial) == Some("a");
    assert "KEY_A" !in DefaultTerminatorKeys && "KEY_A" != Backspace;
    var typed := KeyDown(Initial, "KEY_A", km, "\r\n", DefaultTerminatorKeys, true, OnEnter, now);
    assert typed.state.text == "a";
    assert "KEY_ENTER" in DefaultTerminatorKeys;
    assert typed.state.text + "\r\n" == "a\r\n";
  }

  /** tests/test_runner.py:143-157: KEY_KPENTER ends the line too. */
  lemma KeypadEnterExample(km: KeyMap, s: Buffer, now: real)
    requires Ordinary(km, "KEY_KPENTER") && s.text == "123"
    ensures KeyDown(s, "KEY_KPENTER", km, "\r\n", DefaultTerminatorKeys, true, OnEnter, now).payload == Some("123\r\n")
  {
    assert "KEY_KPENTER" in DefaultTerminatorKeys;
    assert s.text + "\r\n" == "123\r\n";
  }

  /** tests/test_runner.py:829-911: a repeat of the same payload 0.1 s
      later inside a 0.2 s window is dropped, one 0.5 s later is sent. */
  lemma DedupWindowExample(s: Buffer, port: Port, out: Output)
    requires out.mode == OnEnter && out.window == 0.2
    requires s.lastSentPayload == Some("payload") && s.lastSentTime == Some(10.0)
    ensures DedupSend(s, port, "payload", out, 10.1) == Sent(s, port, Done)
    ensures !ShouldSuppressDuplicate(s, "payload", out.window, 10.5)
  {
  }
}
