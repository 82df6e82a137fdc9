/** BufferState and the handlers of key2ser/runner.py that update it in
    place (lines 26-37, 391-431, 626-752). Each method is proved to leave
    the state, and return the payload, that the matching function of the
    Scheduler module computes from the state before the call. */
module Relay {
  import opened Common
  import opened Config
  import opened Failures
  import opened Serial
  import opened Scheduler

  class BufferState {
    var text: string
    var shiftKeys: set<string>
    var kanaMode: bool
    var lastInputTime: Option<real>
    var lastSentPayload: Option<string>
    var lastSentTime: Option<real>

    /** The fields as one value. */
    function Value(): Buffer
      reads this
    {
      Buffer(text, shiftKeys, kanaMode, lastInputTime, lastSentPayload, lastSentTime)
    }

    constructor()
      ensures Value() == Initial
    {
      text := "";
      shiftKeys := {};
      kanaMode := false;
      lastInputTime := None;
      lastSentPayload := None;
      lastSentTime := None;
    }

    /** _reset_buffer (key2ser/runner.py:428-431). */
    method ResetBuffer()
      modifies this
      ensures Value() == Reset(old(Value()))
    {
      text := "";
      lastInputTime := None;
    }

    /** _handle_key_down (key2ser/runner.py:626-666). */
    method HandleKeyDown(keycode: string, km: KeyMap, lineEnd: string, terminators: set<string>,
                         sendOnEnter: bool, mode: SendMode, now: real) returns (payload: Option<string>)
      modifies this
      ensures Step(Value(), payload) == KeyDown(old(Value()), keycode, km, lineEnd, terminators, sendOnEnter, mode, now)
    {
      if keycode in km.shiftKeys {
        shiftKeys := shiftKeys + {keycode};
        return None;
      }
      if keycode in km.kanaToggleKeys {
        kanaMode := !kanaMode;
        return None;
      }
      if keycode in terminators && mode == OnEnter {
        payload := if text != "" || sendOnEnter then Some(text + lineEnd) else None;
        ResetBuffer();
        return;
      }
      if keycode == Backspace {
        if mode != PerChar {
          text := DropLast(text);
          if mode == IdleTimeout {
            lastInputTime := Some(now);
          }
        }
        return None;
      }
      var mapped := Mapped(km, keycode, Value());
      if mapped.Some? {
        if mode == PerChar {
          return mapped;
        }
        text := text + mapped.value;
        if mode == IdleTimeout {
          lastInputTime := Some(now);
        }
      }
      return None;
    }

    /** _handle_key_up (key2ser/runner.py:670-673). */
    method HandleKeyUp(keycode: string, km: KeyMap)
      modifies this
      ensures Value() == KeyUp(old(Value()), keycode, km)
    {
      if keycode in km.shiftKeys {
        shiftKeys := shiftKeys - {keycode};
      }
    }

    /** _maybe_flush_idle_timeout (key2ser/runner.py:677-691). */
    method MaybeFlushIdleTimeout(lineEnd: string, idleTimeout: real, now: real) returns (payload: Option<string>)
      modifies this
      ensures Step(Value(), payload) == IdleFlush(old(Value()), lineEnd, idleTimeout, now)
    {
      if text == "" || lastInputTime.None? {
        return None;
      }
      if now - lastInputTime.value < idleTimeout {
        return None;
      }
      payload := Some(text + lineEnd);
      ResetBuffer();
    }

    /** _send_payload_with_dedup (key2ser/runner.py:391-424). */
    method SendPayloadWithDedup(port: Port, payload: string, out: Output, now: real) returns (q: Port, o: Outcome)
      modifies this
      ensures Sent(Value(), q, o) == DedupSend(old(Value()), port, payload, out, now)
    {
      if out.mode != PerChar && ShouldSuppressDuplicate(Value(), payload, out.window, now) {
        return port, Done;
      }
      if out.serial.emulateTiming {
        q, o := SendPayloadWithTiming(port, out.encode(payload), out.serial);
      } else {
        var plain := PlainSend(port, out.encode(payload));
        q, o := plain.0, plain.1;
      }
      if o.Failed? {
        return;
      }
      lastSentPayload := Some(payload);
      lastSentTime := Some(now);
    }

    /** _send_payload_if_present (key2ser/runner.py:695-715). */
    method SendPayloadIfPresent(port: Port, payload: Option<string>, out: Output, now: real) returns (q: Port, o: Outcome)
      modifies this
      ensures Sent(Value(), q, o) == SendIfPresent(old(Value()), port, payload, out, now)
    {
      if payload.None? {
        return port, Done;
      }
      q, o := SendPayloadWithDedup(port, payload.value, out, now);
    }

    /** _process_key_event (key2ser/runner.py:719-752): the handlers run
        once per keycode of the event, and an exception from a send ends
        the loop. */
    method ProcessKeyEvent(port: Port, e: Event, km: KeyMap, out: Output, now: real) returns (q: Port, o: Outcome)
      modifies this
      ensures Sent(Value(), q, o) == Scheduler.ProcessKeyEvent(old(Value()), port, e, km, out, now)
    {
      q, o := port, Done;
      if e.eventType != EvKey {
        return;
      }
      var codes := e.keycodes;
      if e.keystate == KeyDownState {
        var i := 0;
        while i < |codes|
          invariant 0 <= i <= |codes|
          invariant o == Done
          invariant DownAll(old(Value()), port, codes, km, out, now) == DownAll(Value(), q, codes[i..], km, out, now)
        {
          assert codes[i..][0] == codes[i] && codes[i..][1..] == codes[i + 1..];
          var payload := HandleKeyDown(codes[i], km, out.lineEnd, out.terminators, out.sendOnEnter, out.mode, now);
          q, o := SendPayloadIfPresent(q, payload, out, now);
          if o.Failed? {
            return;
          }
          o := Done;
          i := i + 1;
        }
        assert codes[i..] == [];
      } else if e.keystate == KeyUpState {
        var i := 0;
        while i < |codes|
          invariant 0 <= i <= |codes|
          invariant UpAll(old(Value()), codes, km) == UpAll(Value(), codes[i..], km)
        {
          assert codes[i..][0] == codes[i] && codes[i..][1..] == codes[i + 1..];
          HandleKeyUp(codes[i], km);
          i := i + 1;
        }
        assert codes[i..] == [];
      }
    }
  }
}
