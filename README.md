# key2ser relay core in Dafny

key2ser reads key events from a barcode scanner or keyboard (an evdev input
device on Linux) and relays the typed text to a serial port. This project
models the relay core of `key2ser/runner.py` and the configuration helpers of
`key2ser/config.py`, and proves what they promise.

- **Configuration** (`common.dfy`, `int_parse.dfy`, `escapes.dfy`,
  `config.dfy`): `load_config` over an already-parsed INI file (a map from
  section to option to raw text). It covers the required sections, the
  optional decimal/hex VID and PID, the boolean options, the line-end
  setting in its literal and escape modes, the choice options and the
  non-negative durations.
- **Failures** (`failures.dfy`): the exceptions the core raises and the
  messages it attaches to them.
- **Serial side** (`serial.dfy`): the frame time of one byte. The send with
  timing emulation writes one byte per call and retries a short write at
  most twice. The plain send writes once and then flushes. DTR/RTS are
  defaulted on the modem lines. The pyserial port is a value: a script of
  write replies, plus a log of every call made on it.
- **Send-mode state machine** (`scheduler.dfy`, `relay.dfy`): `BufferState`
  is a class whose methods update its fields in place. Each method is proved
  to leave exactly the state, and return exactly the payload, that a pure
  function of the Scheduler module computes from the old state. The
  properties of on_enter, per_char and idle_timeout modes, and of the
  duplicate filter, are lemmas about those functions.
- **Device selection** (`devices.dfy`): the explicit path comes before
  VID/PID. Devices are scored two points for a preferred key and one for a
  case-insensitive name hint. Selection by VID/PID chooses a device only when
  it is unique or strictly ahead. It is stated as a single outcome
  predicate, `VidPidOutcome`, covering the choice, the error and the devices
  closed, and that outcome is proved to be determined by the devices.
- **Reconnect policy** (`reconnect.dfy`): the `while True` loop of
  `run_event_loop` is modelled over a script of attempts. It retries the
  three connection errors after sleeping the configured interval, re-raises
  everything else, and closes every device it opened exactly once.

The clock is an explicit `now` argument. Times, windows and frame lengths are
real numbers.

The keymap module is a parameter (`Scheduler.KeyMap`), constrained only by
`Scheduler.AgreesWithTests`, the facts of `tests/test_keymap.py`. The codec
is also a parameter (`Scheduler.Output.encode`), and so is Python's `float()`
(`toReal`).

The configuration records carry the fields `runner.py` reads, which include
fields the `config.py` dataclasses do not declare. `LoadConfig` fills the
undeclared ones with fixed values, listed under "## Left out". The tests of
`runner.py` take `DEFAULT_PREFERRED_INPUT_KEYS` and `DEFAULT_TERMINATOR_KEYS`
from `config.py`, but the `config.py` of this model does not define them, so
those two values are chosen here and are not the program's own defaults.

## Model

| member | source | states |
|---|---|---|
| IntParse.ParseOptionalInt | key2ser/config.py:47-57 | None or blank text means "not given"; other text gives `int(text, 0)` of the stripped text when that accepts it, and the ValueError naming the field exactly when it does not |
| IntParse.BlankIsAbsent | key2ser/config.py:50-53 | whitespace-only text is "not given" |
| IntRoundTrip.DecimalRoundTrip | key2ser/config.py:54-55 | the decimal rendering of every integer parses back to it |
| IntRoundTrip.HexRoundTrip | key2ser/config.py:54-55 | the `0x` rendering of every natural number parses back to it |
| IntRoundTrip.HexExamples | tests/test_config.py:8-31 | "0x1234" and "0xabcd" give 0x1234 and 0xABCD |
| Common.StripEmptyIffBlank | key2ser/config.py:50-53 | strip() gives "" exactly when every character is whitespace |
| Config.MissingSections | key2ser/config.py:91-93 | holds exactly the required sections absent from the file, in strictly increasing order |
| Config.GetBool | key2ser/config.py:61-65 | the default when the option is absent, else configparser's boolean reading of its value |
| Config.BooleanState | key2ser/config.py:61-65 | true for 1/yes/true/on and false for 0/no/false/off in any case; any other value is an error |
| Config.SendModeNamed | key2ser/config.py:118-120 | only on_enter, per_char and idle_timeout name a mode |
| Config.Choice | key2ser/config.py:112 | a choice option is stripped and lower-cased, and blank means the default |
| Config.LoadInput | key2ser/config.py:97-102 | the mode is stripped; the device is the stripped path, or None when blank; VID/PID go through the optional-int parser and grab through getboolean; the first of them that fails, in source order, gives the section's error (the field-naming ValueError for VID/PID); the section loads when all of them parse |
| Config.LoadSerial | key2ser/config.py:104-108 | a blank port is "serial.port is required"; a loaded port is the stripped, non-blank value, with baudrate and timeout read by getint/getfloat; their errors pass through, and the section loads when all three are valid |
| Config.LoadWindow | key2ser/config.py:121-126 | a duration loads iff it is at least 0; a negative one is rejected with its own message |
| Config.LoadOutput | key2ser/config.py:111-126 | the line-end mode is the stripped, lower-cased option (literal by default), and any value other than literal/escape is rejected; the line end is read as written in that mode, and an invalid escape is rejected; then send_on_enter's getboolean error, the send_mode message, and each window's error pass through in source order; encoding, send_on_enter, the send mode and both durations are those of the file; the section loads when every step succeeds |
| Config.LoadConfig | key2ser/config.py:80-146 | missing sections are rejected first, listed in sorted order; then the input, serial and output sections are validated in source order, each one's error passed through, and a file whose three sections load gives the config made of them |
| ConfigFacts.LoadedConfigValid | key2ser/config.py:91-126 | a loaded config has all three sections, a non-blank port, a known line-end mode, non-negative durations, the parsed VID/PID and the line end read as written |
| ConfigFacts.AsciiLineEndAgrees | key2ser/config.py:74 | on an ASCII line-end setting the loaded line end is also the corrected reading |
| ConfigFacts.PortRequired | key2ser/config.py:104-106 | a blank or missing port is rejected with "serial.port is required" |
| ConfigFacts.NegativeWindowsRejected | key2ser/config.py:121-126 | a negative idle or dedup window never loads, and the window's own message is its error |
| ConfigFacts.SendModeChoice | key2ser/config.py:118-120 | send_mode is accepted iff its stripped, lower-cased text is one of the three names; blank means on_enter |
| ConfigFacts.SendModeNameRoundTrip | key2ser/config.py:118-120 | every mode is read back from its own name |
| ConfigFacts.BooleanNames | key2ser/config.py:61-65 | "true"/"TRUE" read as true, "Off" as false, and "maybe" is an error |
| ConfigFacts.MissingSectionsExample | key2ser/config.py:91-95 | a file with only [input] is rejected for "output, serial" |
| ConfigFacts.HexVidPidLoads | tests/test_config.py:8-31 | hex VID/PID in the input section load as numbers |
| ConfigFacts.MissingPortRejected | tests/test_config.py:34-51 | a file without serial.port is rejected |
| Escapes.DecodeLineEnd | key2ser/config.py:73-76 | a malformed escape is the ValueError, and a success is exactly what the decoder produced |
| Escapes.ParseLineEndAsWritten | key2ser/config.py:69-76 | literal mode keeps the text; other modes decode its UTF-8 bytes with unicode_escape |
| Escapes.ParseLineEnd | key2ser/config.py:69-76 | literal mode keeps the text; other modes decode the escapes over the text's own characters |
| EscapeFacts.EscapeRoundTrip | key2ser/config.py:73-76 | escape mode reads back every string that EscapeText wrote |
| EscapeFacts.PlainTextKept | key2ser/config.py:73-76 | text without a backslash is kept in escape mode |
| EscapeFacts.AsWrittenKeepsPlainIffAscii | key2ser/config.py:73-76 | as written, backslash-free text survives escape mode iff it is ASCII |
| EscapeFacts.AsWrittenAgreesOnAscii | key2ser/config.py:69-76 | on ASCII text the written and corrected readings agree |
| EscapeFacts.CrLfExample | key2ser/config.py:73-76 | the four characters `\r\n` become CR LF |
| EscapeFacts.TrailingBackslashRejected | key2ser/config.py:75-76 | a trailing backslash is an invalid escape |
| EscapeFacts.TruncatedHexRejected | key2ser/config.py:75-76 | `\x` with one hex digit is an invalid escape |
| EscapeFacts.UnknownEscapeKept | key2ser/config.py:74 | an unknown escape keeps its backslash |
| EscapeFacts.MojibakeExample | key2ser/config.py:74 | as written, "é" in escape mode becomes "Ã©"; the corrected reading keeps "é" |
| Serial.FrameSeconds | key2ser/runner.py:309-313 | the frame time times the baud rate is the start bit plus the data, parity and stop bits |
| Serial.ParityBits | key2ser/runner.py:311 | no parity bit exactly for parity "N", otherwise one |
| SerialFacts.FrameBits | key2ser/runner.py:309-313 | 8N1 takes 10 bit times, and 8 bits with parity and one stop bit take 11 |
| Serial.PlainSend | key2ser/runner.py:359-370 | an unencodable payload is skipped without touching the port; an unknown codec is a ValueError; otherwise one write of all the bytes, then a flush unless the write raised; it ends normally iff neither raised, and a failure is SerialConnectionError |
| SerialFacts.PlainSendIgnoresCount | key2ser/runner.py:366-367 | a write that accepts nothing still ends normally after the flush, with nothing delivered |
| SerialFacts.PlainSendAcceptingPort | key2ser/runner.py:359-370 | a port that accepts everything gets the payload in one write and a flush |
| Serial.TimedSend | key2ser/runner.py:317-355 | an unencodable payload is skipped, an unknown codec is a ValueError, and empty data leaves the port untouched; a zero baud rate raises ZeroDivisionError and a frame time of 0 or less falls back to the plain send; SerialFacts.TimedSendDelivers covers a positive frame time |
| Serial.SendPayloadWithTiming | key2ser/runner.py:317-355 | the byte loop, then the flush, gives the port and outcome TimedSend describes |
| Serial.WriteEachByte | key2ser/runner.py:334-348 | the loop over the bytes makes the calls of EachRun and succeeds exactly when it does |
| Serial.WriteByteWithRetry | key2ser/runner.py:336-343 | the retry loop for one byte makes the calls of ByteRun and succeeds exactly when it does |
| SerialFacts.ByteRunCalls | key2ser/runner.py:336-343 | one byte takes 1 to 3 single-byte writes, every one but the last short; it fails only after three short writes or after a write that is neither short nor a success |
| SerialFacts.EachRunCalls | key2ser/runner.py:334-348 | every write carries one byte, at most three per byte |
| SerialFacts.EachRunDelivers | key2ser/runner.py:334-348 | on success the accepted bytes are the data in order; on failure they are a proper prefix of it |
| SerialFacts.TimedSendDelivers | key2ser/runner.py:317-355 | with a positive frame time, the port sees single-byte writes and then a flush; a normal end delivered all the data, and any other end is SerialConnectionError having delivered a prefix |
| SerialFacts.AcceptingPortWritesEach | key2ser/runner.py:334-348 | a port that accepts everything gets each byte in its own write |
| SerialFacts.TwoBytesExample | tests/test_runner.py:952-983 | "ab" goes out as two writes and then a flush |
| SerialFacts.ShortWriteRetried | tests/test_runner.py:986-1019 | a write that returns 0 is retried, and then the byte goes out |
| SerialFacts.ThirdShortWriteFails | key2ser/runner.py:336-348 | three short writes end the send with SerialConnectionError, with no fourth write and no flush |
| SerialFacts.OtherReplyNotRetried | key2ser/runner.py:336-348 | a write that raises or reports another count is not retried |
| Serial.ApplyModemSignalSettings | key2ser/runner.py:583-598 | with emulation on and neither line given, both lines go high; otherwise only explicit values are set, DTR before RTS; a call that raises is SerialConnectionError and keeps what was set before it |
| SerialFacts.EmulatedSignalsExample | tests/test_runner.py:615-660 | with emulation on and no levels given, DTR and RTS go high |
| SerialFacts.ExplicitSignalsExample | tests/test_runner.py:663-707 | DTR false and RTS true are set as configured |
| SerialFacts.DtrKeptWhenRtsFails | key2ser/runner.py:592-596 | when setRTS raises after setDTR succeeded, DTR stays set and the error is SerialConnectionError |
| Scheduler.Reset | key2ser/runner.py:428-431 | the text becomes empty and the last input time None; every other field is kept |
| Scheduler.Mapped | key2ser/runner.py:656-660 | a key contributes text exactly when the keymap gives it a non-empty string under the current shift and kana state |
| Scheduler.KeyUp | key2ser/runner.py:670-673 | releasing a shift key removes it from the held set; any other key changes nothing |
| Scheduler.IdleFlush | key2ser/runner.py:677-691 | nothing is sent iff the text is empty, no input time is recorded, or the timeout has not yet passed; otherwise text + line end is sent and the buffer reset |
| Scheduler.DropLast | key2ser/runner.py:649-652 | removes the last character, and empty text stays empty |
| Scheduler.UpAll | key2ser/runner.py:750-752 | a key-up event removes the released shift keys from the held set and touches nothing else |
| Scheduler.KeyDown | key2ser/runner.py:626-666 | the key-down step; SchedulerFacts.TerminatorInOnEnter, MappedKey, UnmappedKeyIgnored, SilentKeys and PayloadSources state what it sends and how the buffer changes |
| Scheduler.ShouldSuppressDuplicate | key2ser/runner.py:373-387 | the duplicate filter; SchedulerFacts.SuppressIff states it as the four conditions, with the inclusive bound |
| Scheduler.DedupSend | key2ser/runner.py:391-424 | the send with the duplicate filter; SchedulerFacts.SuppressedLeavesAll, SendRecords and PerCharNeverSuppressed state what it keeps and records |
| Scheduler.SendIfPresent | key2ser/runner.py:695-715 | no payload sends nothing and changes nothing; a payload goes through DedupSend |
| Scheduler.DownAll | key2ser/runner.py:732-749 | an empty keycode list does nothing; SchedulerFacts.TypingAppends and TypedSameModifiers state what a run of keycodes types |
| Scheduler.ProcessKeyEvent | key2ser/runner.py:719-752 | a key event dispatched by its value; Relay.BufferState.ProcessKeyEvent is proved equal to it |
| Relay.BufferState.constructor | key2ser/runner.py:26-37 | a new state is empty: no text, no shift held, kana off, no times or payload |
| Relay.BufferState.ResetBuffer | key2ser/runner.py:428-431 | the fields become Scheduler.Reset of the old ones |
| Relay.BufferState.HandleKeyDown | key2ser/runner.py:626-666 | the new fields and the payload are Scheduler.KeyDown of the old fields |
| Relay.BufferState.HandleKeyUp | key2ser/runner.py:670-673 | the new fields are Scheduler.KeyUp of the old ones |
| Relay.BufferState.MaybeFlushIdleTimeout | key2ser/runner.py:677-691 | the new fields and the payload are Scheduler.IdleFlush of the old fields |
| Relay.BufferState.SendPayloadWithDedup | key2ser/runner.py:391-424 | the new fields, the port and the outcome are Scheduler.DedupSend of the old fields |
| Relay.BufferState.SendPayloadIfPresent | key2ser/runner.py:695-715 | the new fields, the port and the outcome are Scheduler.SendIfPresent of the old fields |
| Relay.BufferState.ProcessKeyEvent | key2ser/runner.py:719-752 | the per-keycode loops leave what Scheduler.ProcessKeyEvent computes, stopping at the first send that raises |
| SchedulerFacts.TerminatorInOnEnter | key2ser/runner.py:642-648 | in on_enter mode a terminator sends text + line end iff the text is non-empty or send_on_enter is set, and always resets the buffer |
| SchedulerFacts.TerminatorsOnlyInOnEnter | key2ser/runner.py:642 | outside on_enter mode the terminator set plays no part |
| SchedulerFacts.MappedKey | key2ser/runner.py:656-666 | a mapped key is the payload in per_char mode with the buffer unchanged; otherwise it is appended, nothing is sent, and idle_timeout records `now` |
| SchedulerFacts.UnmappedKeyIgnored | key2ser/runner.py:656-658 | a key the keymap does not know changes nothing |
| SchedulerFacts.SilentKeys | key2ser/runner.py:636-655 | shift, kana toggle and backspace never send; shift is added to the held set, kana flips, and backspace drops a character except in per_char mode, restarting the idle clock at `now` in idle_timeout mode |
| SchedulerFacts.PayloadSources | key2ser/runner.py:626-666 | a key-down sends only for a terminator in on_enter mode or a mapped key in per_char mode |
| SchedulerFacts.KanaToggleTwice | key2ser/runner.py:639-641 | toggling kana twice restores the state |
| SchedulerFacts.ShiftPressRelease | key2ser/runner.py:636-638 | pressing and releasing a shift key that was not held restores the state |
| SchedulerFacts.IdleFlushOnce | key2ser/runner.py:677-691 | after a flush that sent, a later check sends nothing |
| SchedulerFacts.IdleFlushStaysDue | key2ser/runner.py:677-691 | once due, a flush stays due at every later time |
| SchedulerFacts.SuppressIff | key2ser/runner.py:373-387 | a payload is held back iff the window is positive, a previous send exists, the payload equals it, and at most the window has elapsed (inclusive) |
| SchedulerFacts.SuppressedLeavesAll | key2ser/runner.py:404-412 | a suppressed payload leaves the state and the port untouched |
| SchedulerFacts.SendRecords | key2ser/runner.py:413-424 | a send that does not raise records the payload and the time, even when encoding skipped it; one that raises records nothing |
| SchedulerFacts.PerCharNeverSuppressed | key2ser/runner.py:404 | per_char payloads are never filtered |
| SchedulerFacts.TypingAppends | key2ser/runner.py:732-749 | in on_enter mode, mapped keys in one event only extend the buffer, in order, and send nothing |
| SchedulerFacts.TypedSameModifiers | key2ser/runner.py:656-660 | the typed text depends only on the shift and kana state |
| SchedulerFacts.PerCharExample | tests/test_runner.py:57-72 | KEY_A in per_char mode sends "a" and leaves the buffer empty |
| SchedulerFacts.IdleTimeoutExample | tests/test_runner.py:75-111 | KEY_A is buffered and flushed as "a\r\n" once the timeout has passed, and not before |
| SchedulerFacts.OnEnterExample | tests/test_runner.py:114-140 | KEY_A then KEY_ENTER sends "a\r\n" |
| SchedulerFacts.KeypadEnterExample | tests/test_runner.py:143-157 | KEY_KPENTER ends the line too |
| SchedulerFacts.DedupWindowExample | tests/test_runner.py:829-911 | a repeat 0.1 s later is dropped, and one 0.5 s later goes out |
| Devices.NormalizeDeviceHint | key2ser/runner.py:176-178 | a missing or empty value is "", anything else is lower-cased character by character |
| Devices.MatchDeviceInfo | key2ser/runner.py:49-51 | a device matches when both configured VID and PID equal its own; Devices.OpenAndMatch and DeviceFacts.VidPidDeterministic use it |
| Devices.DeviceHasKeys | key2ser/runner.py:182-196 | true exactly when some named key's code is among the device's key capabilities; missing or failing capabilities give false |
| Devices.ScoreDevice | key2ser/runner.py:200-212 | the score is 0 to 3; two points iff a preferred key is present, one iff the hint matches name, phys or uniq |
| Devices.Best | key2ser/runner.py:221-223 | the first position of a highest score |
| Devices.SelectSingleDevice | key2ser/runner.py:215-237 | a single candidate is chosen; among several, a device is chosen only if its score is positive and above every other, and otherwise none is |
| Devices.OpenAndMatch | key2ser/runner.py:246-258 | the matching positions in order, exactly the non-matching opened devices closed, and whether any open failed |
| Devices.SelectDeviceByVidPid | key2ser/runner.py:242-270 | VidPidOutcome: every opened device except the chosen one is closed; the choice is the only match or the strict winner; otherwise the error is DeviceNotFoundError (ambiguous) when something matched, else DeviceAccessError when an open failed, else DeviceNotFoundError |
| Devices.OpenByPath | key2ser/runner.py:276-285 | the path is used iff it exists and opens; a missing path is DeviceNotFoundError naming it, a PermissionError the access-permission DeviceAccessError, and any other open failure the open-failed DeviceAccessError |
| Devices.OpenInputDevice | key2ser/runner.py:274-295 | an explicit path takes precedence; VID/PID selection runs only when both are given and devices can be listed; with neither, DeviceNotFoundError |
| DeviceFacts.VidPidDeterministic | key2ser/runner.py:242-270 | the devices determine the selection outcome: the choice, the error and the set of closed devices |
| DeviceFacts.ChoiceUnique | key2ser/runner.py:215-237 | at most one device is the only match or the strict winner |
| DeviceFacts.ChosenKeptOthersClosed | key2ser/runner.py:228-270 | the chosen device matches and stays open; every other opened device is closed exactly once |
| DeviceFacts.SingleMatchChosen | key2ser/runner.py:219-220 | a single matching device is chosen whatever its score |
| DeviceFacts.HintIgnoresCase | key2ser/runner.py:205-210 | matching ignores the case of the hint |
| DeviceFacts.PermissionErrorExample | tests/test_runner.py:160-181 | a permission error on the path is DeviceAccessError |
| DeviceFacts.OpenErrorExample | tests/test_runner.py:205-224 | a failed open with no match is DeviceAccessError |
| DeviceFacts.ClosesUnmatchedExample | tests/test_runner.py:258-299 | the matching device is chosen and the other closed |
| DeviceFacts.AmbiguousExample | tests/test_runner.py:302-343 | two matches that both score 0 are both closed and reported as ambiguous |
| DeviceFacts.PreferredKeysExample | tests/test_runner.py:346-395 | the device with the preferred key wins |
| DeviceFacts.NameHintExample | tests/test_runner.py:397-438 | the device whose name contains the hint wins |
| Reconnect.AttemptFailure | key2ser/runner.py:859-870 | a pass fails with the open error, with DeviceAccessError when grab fails, or with what the event loop raised |
| Reconnect.CloseOf | key2ser/runner.py:882-884 | a pass closes its own device, if it opened one |
| Reconnect.RunEventLoop | key2ser/runner.py:849-884 | the `while True` loop ends and logs sleeps and closes as EventLoop describes |
| Reconnect.Passes | key2ser/runner.py:856-884 | the passes of the retry loop from a given attempt on; ReconnectFacts.EachOpenedClosed, ClosedOnce, ClosesFrom, SleepsAreTheInterval and RaisedNotRetried state its closes, sleeps and end |
| Reconnect.EventLoop | key2ser/runner.py:849-884 | a non-evdev mode is a ValueError before anything is opened (ReconnectFacts.OnlyEvdev); otherwise the passes from the first attempt |
| ReconnectFacts.EachOpenedClosed | key2ser/runner.py:856-884 | a device is closed iff its attempt opened it and every earlier attempt was retried |
| ReconnectFacts.ClosedOnce | key2ser/runner.py:882-884 | no device is closed twice |
| ReconnectFacts.ClosesFrom | key2ser/runner.py:882-884 | later passes close only devices at their own positions |
| ReconnectFacts.SleepsAreTheInterval | key2ser/runner.py:872-881 | every sleep lasts exactly the configured interval; with the interval at 0 or below nothing sleeps |
| ReconnectFacts.NoRetryWhenDisabled | key2ser/runner.py:872-874 | with the interval at 0 or below, the first attempt's outcome ends the loop |
| ReconnectFacts.RaisedNotRetried | key2ser/runner.py:872-874 | the loop raises only errors it does not retry |
| ReconnectFacts.OnlyEvdev | key2ser/runner.py:851-852 | a mode other than evdev is a ValueError before any device is touched |
| ReconnectFacts.RetryOnSerialErrorExample | tests/test_runner.py:1199-1252 | a serial error sleeps 1.5 s and retries; the next error propagates; both devices are closed |
| ReconnectFacts.ReconnectDisabledExample | tests/test_runner.py:1255-1287 | with the interval at 0, DeviceNotFoundError from opening propagates |

## Left out

- The PTY bridge thread, virtual PTY creation, permissions, symlinks and
  opening pyserial with errno translation (key2ser/runner.py:61-141,
  441-579): these are OS I/O and concurrency.
- `_run_event_loop_idle_timeout` and `_run_event_loop_default`
  (key2ser/runner.py:756-845): these are blocking select/read drivers. Only
  the per-event step and the idle-flush decision they call are modelled. In
  `Reconnect`, what one pass of the event loop ends with is an input.
- Logging (`_log_available_devices`, `_log_device_info`, `_log_virtual_pty`,
  and the warnings logged by `_close_input_device`): it has no effect on the
  state.
- `_encode_payload` (key2ser/runner.py:299-306): Python codecs are a
  parameter from payload to bytes, an encode error, or an unknown codec.
- The keymap module is not part of this model. It is a parameter,
  constrained only by the facts of tests/test_keymap.py.
- The pacing sleeps and the `next_time` accumulator of
  `_send_payload_with_timing`: only the calls made on the port are modelled.
- Floating point: times, windows, frame lengths and intervals are reals.
- `time.monotonic()`: each key event reads one `now`, used both by the
  handler and by the send that follows it.
- configparser's file reading, interpolation and section syntax: the model
  starts from the parsed map. Python's `float()` is a parameter.
- The unicode_escape codec's `\N{name}` escapes are not modelled, and code
  points that are lone surrogates are rejected rather than kept.
- `str.lower()` is modelled on ASCII letters only. `str.isspace()` is
  modelled on the Latin-1 range: the Unicode space separators above U+00FF
  are not whitespace here.
- `IntParse.ParseIntBase0`: Python's `int()` also accepts non-ASCII decimal
  digits (Arabic-Indic digits, for example); the model reads ASCII digits only
  and rejects the others.
- The defaults of fields that `load_config` does not set are fixed values:
  `device_name_contains` None, `prefer_event_has_keys` empty,
  `reconnect_interval_seconds` 0, `bytesize` 8, `parity` "N", `stopbits` 1,
  `emulate_modem_signals` false, `dtr` and `rts` None, `emulate_timing` false,
  `encoding_errors` "strict", and `terminator_keys` {KEY_ENTER, KEY_KPENTER}.
  `prefer_event_has_keys` empty is not the program's default: the tests pass
  `DEFAULT_PREFERRED_INPUT_KEYS`, whose contents are not part of this model.
  `terminator_keys` are the two keys the tests show ending a line; the
  contents of `DEFAULT_TERMINATOR_KEYS` are not part of this model either.
- `_iter_keycodes` (key2ser/runner.py:435-437) is folded into
  `Scheduler.Event.keycodes`: a single keycode is a one-element list.
- `Devices.SelectSingleDevice`: the source sorts by score and compares the
  top score with the runner-up. The model states the same choice as "the
  first device with the highest score, positive and above every other".
- `Devices.SelectDeviceByVidPid`: the order in which unselected matches are
  closed is not stated. Only which devices are closed, and that each is
  closed once, are stated.
- `Devices.OpenByPath`: the missing-path message uses the configured text
  rather than `str(Path(text))`, which normalises it.
- `Reconnect.RunEventLoop`: the `while True` loop runs over a finite script
  of attempts, and `ScriptExhausted` marks a script that ran out while the
  loop would retry again.
- `SerialFacts.TimedSendDelivers`: a failed send is stated to have delivered
  a prefix (`<=`) of the data, not a proper prefix, because the flush can
  raise after every byte went out.
- key2ser/cli.py is not part of this model: it is argument parsing and
  exit-code glue.

## Findings

| source | as written | input that shows it | evidently intended | confidence | as-written member | corrected member |
|---|---|---|---|---|---|---|
| key2ser/config.py:74 | escape mode encodes the line end as UTF-8, then decodes with unicode_escape, which reads every non-escape byte as Latin-1 | line_end = "é" with line_end_mode = escape gives "Ã©" | decode the escapes and keep every other character as written | high (not executed) | Escapes.ParseLineEndAsWritten, EscapeFacts.MojibakeExample | Escapes.ParseLineEnd, EscapeFacts.EscapeRoundTrip |

`Config.LoadOutput` reads the line end as written
(`Escapes.ParseLineEndAsWritten`), so a loaded config carries the same line
end the program would send; `ConfigFacts.AsciiLineEndAgrees` shows that the
corrected `Escapes.ParseLineEnd` gives the same value whenever the setting is
ASCII; the two differ only on non-ASCII characters.
