/** key2ser/config.py: the configuration records and load_config's
    validation, over an already-parsed INI file (section name to option name
    to raw value). Python's float() is the abstract `toReal`. */
module Config {
  import opened Common
  import opened IntParse
  import opened Escapes

  datatype SendMode = OnEnter | PerChar | IdleTimeout

  /** The input section, with the fields key2ser/runner.py reads. */
  datatype InputConfig = InputConfig(
    mode: string,
    device: Option<string>,
    vendorId: Option<int>,
    productId: Option<int>,
    deviceNameContains: Option<string>,
    preferEventHasKeys: seq<string>,
    grab: bool,
    reconnectIntervalSeconds: real)

  /** The serial section, with the fields the send path and the modem-line
      settings read. */
  datatype SerialConfig = SerialConfig(
    port: string,
    baudrate: int,
    timeout: real,
    bytesize: int,
    parity: string,
    stopbits: real,
    emulateModemSignals: bool,
    dtr: Option<bool>,
    rts: Option<bool>,
    emulateTiming: bool)

  datatype OutputConfig = OutputConfig(
    encoding: string,
    encodingErrors: string,
    lineEnd: string,
    lineEndMode: string,
    terminatorKeys: set<string>,
    sendOnEnter: bool,
    sendMode: SendMode,
    idleTimeoutSeconds: real,
    dedupWindowSeconds: real)

  datatype AppConfig = AppConfig(input: InputConfig, serial: SerialConfig, output: OutputConfig)

  /** A parsed INI file: section name to option name to raw value. */
  type Ini = map<string, map<string, string>>

  /** The keys that end a line in on_enter mode. */
  const DefaultTerminatorKeys: set<string> := {"KEY_ENTER", "KEY_KPENTER"}

  /** The required sections in sorted order. */
  const RequiredSections: seq<string> := ["input", "output", "serial"]

  /** Strict lexicographic order on strings, as Python's sorted() uses. */
  predicate LexLess(a: string, b: string) {
    (|a| < |b| && a == b[..|a|]) ||
    (exists k :: 0 <= k < |a| && k < |b| && a[..k] == b[..k] && a[k] < b[k])
  }

  lemma RequiredSectionsSorted()
    ensures forall i, j :: 0 <= i < j < |RequiredSections| ==> LexLess(RequiredSections[i], RequiredSections[j])
  {
    assert "input"[..0] == "output"[..0] && "input"[0] < "output"[0];
    assert "input"[..0] == "serial"[..0] && "input"[0] < "serial"[0];
    assert "output"[..0] == "serial"[..0] && "output"[0] < "serial"[0];
  }

  /** sorted(required_sections - set(parser.sections())). */
  function MissingSections(ini: Ini): (r: seq<string>)
    ensures forall s :: s in r <==> s in RequiredSections && s !in ini
    ensures forall i, j :: 0 <= i < j < |r| ==> LexLess(r[i], r[j])
  {
    RequiredSectionsSorted();
    var input: seq<string> := if "input" in ini then [] else ["input"];
    var output: seq<string> := if "output" in ini then [] else ["output"];
    var serial: seq<string> := if "serial" in ini then [] else ["serial"];
    input + output + serial
  }

  /** ", ".join(labels). */
  function JoinComma(labels: seq<string>): string {
    if labels == [] then ""
    else if |labels| == 1 then labels[0]
    else labels[0] + ", " + JoinComma(labels[1..])
  }

  function MissingSectionsMessage(missing: seq<string>): string {
    "config.ini に必要なセクションがありません: " + JoinComma(missing)
  }

  /** parser.get(section, option, fallback=...) for a present section. */
  function Get(ini: Ini, section: string, option: string, fallback: string): string
    requires section in ini
  {
    if option in ini[section] then ini[section][option] else fallback
  }

  function GetOptional(ini: Ini, section: string, option: string): Option<string>
    requires section in ini
  {
    if option in ini[section] then Some(ini[section][option]) else None
  }

  /** configparser's BOOLEAN_STATES, looked up in lower case. */
  function BooleanState(value: string): (r: Result<bool, string>)
    ensures r.Ok? && r.value <==> Lower(value) in {"1", "yes", "true", "on"}
    ensures r.Ok? && !r.value <==> Lower(value) in {"0", "no", "false", "off"}
    ensures r.Err? ==> r.error == "Not a boolean: " + value
  {
    var v := Lower(value);
    if v in {"1", "yes", "true", "on"} then Ok(true)
    else if v in {"0", "no", "false", "off"} then Ok(false)
    else Err("Not a boolean: " + value)
  }

  /** _get_bool: the default when the option is absent, else getboolean. */
  function GetBool(ini: Ini, section: string, option: string, default: bool): (r: Result<bool, string>)
    requires section in ini
    ensures option !in ini[section] ==> r == Ok(default)
    ensures option in ini[section] ==> r == BooleanState(ini[section][option])
  {
    if option !in ini[section] then Ok(default) else BooleanState(ini[section][option])
  }

  /** getint with a fallback: int() on the raw value. */
  function GetInt(ini: Ini, section: string, option: string, fallback: int): (r: Result<int, string>)
    requires section in ini
    ensures option !in ini[section] ==> r == Ok(fallback)
    ensures option in ini[section] && r.Ok? ==> Some(r.value) == ParseIntBase10(ini[section][option])
  {
    if option !in ini[section] then Ok(fallback)
    else match ParseIntBase10(ini[section][option])
      case None => Err("invalid literal for int() with base 10: '" + ini[section][option] + "'")
      case Some(n) => Ok(n)
  }

  /** getfloat with a fallback: float() on the raw value. */
  function GetFloat(ini: Ini, section: string, option: string, fallback: real, toReal: string -> Option<real>): (r: Result<real, string>)
    requires section in ini
    ensures option !in ini[section] ==> r == Ok(fallback)
    ensures option in ini[section] && r.Ok? ==> Some(r.value) == toReal(ini[section][option])
  {
    if option !in ini[section] then Ok(fallback)
    else match toReal(ini[section][option])
      case None => Err("could not convert string to float: '" + ini[section][option] + "'")
      case Some(x) => Ok(x)
  }

  /** A choice option: stripped, lower-cased, and the default when blank. */
  function Choice(raw: string, default: string): (r: string)
    ensures Strip(raw) == [] ==> r == default
    ensures Strip(raw) != [] ==> r == Lower(Strip(raw))
  {
    var v := Lower(Strip(raw));
    if v == [] then default else v
  }

  function SendModeNamed(name: string): (r: Option<SendMode>)
    ensures r.Some? <==> name in {"on_enter", "per_char", "idle_timeout"}
  {
    if name == "on_enter" then Some(OnEnter)
    else if name == "per_char" then Some(PerChar)
    else if name == "idle_timeout" then Some(IdleTimeout)
    else None
  }

  function SendModeName(m: SendMode): string {
    match m
    case OnEnter => "on_enter"
    case PerChar => "per_char"
    case IdleTimeout => "idle_timeout"
  }

  const LineEndModeMessage: string := "output.line_end_mode は literal / escape のいずれかを指定してください。"
  const SendModeMessage: string := "output.send_mode は on_enter / per_char / idle_timeout のいずれかを指定してください。"
  const IdleTimeoutMessage: string := "output.idle_timeout_seconds は 0 以上の値を指定してください。"
  const DedupWindowMessage: string := "output.dedup_window_seconds は 0 以上の値を指定してください。"
  const PortRequiredMessage: string := "serial.port is required"

  /** The input section (key2ser/config.py:98-102). */
  function LoadInput(ini: Ini): (r: Result<InputConfig, string>)
    requires "input" in ini
    ensures r.Ok? ==> ParseOptionalInt(GetOptional(ini, "input", "vendor_id"), "vendor_id") == Ok(r.value.vendorId)
    ensures r.Ok? ==> ParseOptionalInt(GetOptional(ini, "input", "product_id"), "product_id") == Ok(r.value.productId)
    ensures r.Ok? ==> r.value.mode == Strip(Get(ini, "input", "mode", "evdev"))
    ensures r.Ok? ==> GetBool(ini, "input", "grab", false) == Ok(r.value.grab)
    ensures r.Ok? && Strip(Get(ini, "input", "device", "")) == [] ==> r.value.device.None?
    ensures r.Ok? && Strip(Get(ini, "input", "device", "")) != [] ==> r.value.device == Some(Strip(Get(ini, "input", "device", "")))
    ensures ParseOptionalInt(GetOptional(ini, "input", "vendor_id"), "vendor_id").Err? ==>
      r == Err(OptionalIntMessage("vendor_id"))
    ensures (ParseOptionalInt(GetOptional(ini, "input", "vendor_id"), "vendor_id").Ok?
             && ParseOptionalInt(GetOptional(ini, "input", "product_id"), "product_id").Err?) ==>
      r == Err(OptionalIntMessage("product_id"))
    ensures (ParseOptionalInt(GetOptional(ini, "input", "vendor_id"), "vendor_id").Ok?
             && ParseOptionalInt(GetOptional(ini, "input", "product_id"), "product_id").Ok?
             && GetBool(ini, "input", "grab", false).Err?) ==>
      r == Err(GetBool(ini, "input", "grab", false).error)
    ensures (ParseOptionalInt(GetOptional(ini, "input", "vendor_id"), "vendor_id").Ok?
             && ParseOptionalInt(GetOptional(ini, "input", "product_id"), "product_id").Ok?
             && GetBool(ini, "input", "grab", false).Ok?) ==> r.Ok?
  {
    var mode := Strip(Get(ini, "input", "mode", "evdev"));
    var deviceText := Strip(Get(ini, "input", "device", ""));
    var device := if deviceText == [] then None else Some(deviceText);
    match ParseOptionalInt(GetOptional(ini, "input", "vendor_id"), "vendor_id")
    case Err(e) => Err(e)
    case Ok(vendorId) =>
      match ParseOptionalInt(GetOptional(ini, "input", "product_id"), "product_id")
      case Err(e) => Err(e)
      case Ok(productId) =>
        match GetBool(ini, "input", "grab", false)
        case Err(e) => Err(e)
        case Ok(grab) => Ok(InputConfig(mode, device, vendorId, productId, None, [], grab, 0.0))
  }

  /** The serial section (key2ser/config.py:104-108). */
  function LoadSerial(ini: Ini, toReal: string -> Option<real>): (r: Result<SerialConfig, string>)
    requires "serial" in ini
    ensures Strip(Get(ini, "serial", "port", "")) == [] ==> r == Err(PortRequiredMessage)
    ensures r.Ok? ==> r.value.port == Strip(Get(ini, "serial", "port", "")) && r.value.port != []
    ensures r.Ok? ==> GetInt(ini, "serial", "baudrate", 9600) == Ok(r.value.baudrate)
    ensures r.Ok? ==> GetFloat(ini, "serial", "timeout", 1.0, toReal) == Ok(r.value.timeout)
    ensures Strip(Get(ini, "serial", "port", "")) != [] && GetInt(ini, "serial", "baudrate", 9600).Err? ==>
      r == Err(GetInt(ini, "serial", "baudrate", 9600).error)
    ensures (Strip(Get(ini, "serial", "port", "")) != [] && GetInt(ini, "serial", "baudrate", 9600).Ok?
             && GetFloat(ini, "serial", "timeout", 1.0, toReal).Err?) ==>
      r == Err(GetFloat(ini, "serial", "timeout", 1.0, toReal).error)
    ensures (Strip(Get(ini, "serial", "port", "")) != [] && GetInt(ini, "serial", "baudrate", 9600).Ok?
             && GetFloat(ini, "serial", "timeout", 1.0, toReal).Ok?) ==> r.Ok?
  {
    var port := Strip(Get(ini, "serial", "port", ""));
    if port == [] then Err(PortRequiredMessage)
    else match GetInt(ini, "serial", "baudrate", 9600)
      case Err(e) => Err(e)
      case Ok(baudrate) =>
        match GetFloat(ini, "serial", "timeout", 1.0, toReal)
        case Err(e) => Err(e)
        case Ok(timeout) => Ok(SerialConfig(port, baudrate, timeout, 8, "N", 1.0, false, None, None, false))
  }

  /** A non-negative duration option: getfloat with a fallback, and the
      ValueError `message` for a negative value (zero is allowed). */
  function LoadWindow(ini: Ini, option: string, fallback: real, message: string, toReal: string -> Option<real>): (r: Result<real, string>)
    requires "output" in ini
    ensures r.Ok? ==> r.value >= 0.0 && GetFloat(ini, "output", option, fallback, toReal) == Ok(r.value)
    ensures GetFloat(ini, "output", option, fallback, toReal).Ok? ==>
      (r.Ok? <==> GetFloat(ini, "output", option, fallback, toReal).value >= 0.0)
    ensures GetFloat(ini, "output", option, fallback, toReal).Ok? && GetFloat(ini, "output", option, fallback, toReal).value < 0.0 ==>
      r == Err(message)
  {
    match GetFloat(ini, "output", option, fallback, toReal)
    case Err(e) => Err(e)
    case Ok(x) => if x < 0.0 then Err(message) else Ok(x)
  }

  /** The output section (key2ser/config.py:111-126). */
  function LoadOutput(ini: Ini, toReal: string -> Option<real>): (r: Result<OutputConfig, string>)
    requires "output" in ini
    ensures r.Ok? ==> r.value.lineEndMode in {"literal", "escape"}
    ensures r.Ok? ==> r.value.lineEndMode == Choice(Get(ini, "output", "line_end_mode", "literal"), "literal")
    ensures Choice(Get(ini, "output", "line_end_mode", "literal"), "literal") !in {"literal", "escape"} ==>
      r == Err(LineEndModeMessage)
    ensures r.Ok? ==> r.value.encoding == Strip(Get(ini, "output", "encoding", "utf-8"))
    ensures r.Ok? ==> GetBool(ini, "output", "send_on_enter", true) == Ok(r.value.sendOnEnter)
    ensures r.Ok? ==> ParseLineEndAsWritten(Get(ini, "output", "line_end", "\r\n"), r.value.lineEndMode) == Ok(r.value.lineEnd)
    ensures (Choice(Get(ini, "output", "line_end_mode", "literal"), "literal") in {"literal", "escape"}
             && ParseLineEndAsWritten(Get(ini, "output", "line_end", "\r\n"), Choice(Get(ini, "output", "line_end_mode", "literal"), "literal")).Err?) ==>
      r == Err(EscapeErrorMessage)
    ensures (Choice(Get(ini, "output", "line_end_mode", "literal"), "literal") in {"literal", "escape"}
             && ParseLineEndAsWritten(Get(ini, "output", "line_end", "\r\n"), Choice(Get(ini, "output", "line_end_mode", "literal"), "literal")).Ok?
             && GetBool(ini, "output", "send_on_enter", true).Err?) ==>
      r == Err(GetBool(ini, "output", "send_on_enter", true).error)
    ensures (Choice(Get(ini, "output", "line_end_mode", "literal"), "literal") in {"literal", "escape"}
             && ParseLineEndAsWritten(Get(ini, "output", "line_end", "\r\n"), Choice(Get(ini, "output", "line_end_mode", "literal"), "literal")).Ok?
             && GetBool(ini, "output", "send_on_enter", true).Ok?
             && SendModeNamed(Choice(Get(ini, "output", "send_mode", "on_enter"), "on_enter")).None?) ==>
      r == Err(SendModeMessage)
    ensures (Choice(Get(ini, "output", "line_end_mode", "literal"), "literal") in {"literal", "escape"}
             && ParseLineEndAsWritten(Get(ini, "output", "line_end", "\r\n"), Choice(Get(ini, "output", "line_end_mode", "literal"), "literal")).Ok?
             && GetBool(ini, "output", "send_on_enter", true).Ok?
             && SendModeNamed(Choice(Get(ini, "output", "send_mode", "on_enter"), "on_enter")).Some?
             && LoadWindow(ini, "idle_timeout_seconds", 0.5, IdleTimeoutMessage, toReal).Err?) ==>
      r == Err(LoadWindow(ini, "idle_timeout_seconds", 0.5, IdleTimeoutMessage, toReal).error)
    ensures (Choice(Get(ini, "output", "line_end_mode", "literal"), "literal") in {"literal", "escape"}
             && ParseLineEndAsWritten(Get(ini, "output", "line_end", "\r\n"), Choice(Get(ini, "output", "line_end_mode", "literal"), "literal")).Ok?
             && GetBool(ini, "output", "send_on_enter", true).Ok?
             && SendModeNamed(Choice(Get(ini, "output", "send_mode", "on_enter"), "on_enter")).Some?
             && LoadWindow(ini, "idle_timeout_seconds", 0.5, IdleTimeoutMessage, toReal).Ok?
             && LoadWindow(ini, "dedup_window_seconds", 0.2, DedupWindowMessage, toReal).Err?) ==>
      r == Err(LoadWindow(ini, "dedup_window_seconds", 0.2, DedupWindowMessage, toReal).error)
    ensures (Choice(Get(ini, "output", "line_end_mode", "literal"), "literal") in {"literal", "escape"}
             && ParseLineEndAsWritten(Get(ini, "output", "line_end", "\r\n"), Choice(Get(ini, "output", "line_end_mode", "literal"), "literal")).Ok?
             && GetBool(ini, "output", "send_on_enter", true).Ok?
             && SendModeNamed(Choice(Get(ini, "output", "send_mode", "on_enter"), "on_enter")).Some?
             && LoadWindow(ini, "idle_timeout_seconds", 0.5, IdleTimeoutMessage, toReal).Ok?
             && LoadWindow(ini, "dedup_window_seconds", 0.2, DedupWindowMessage, toReal).Ok?) ==> r.Ok?
    ensures r.Ok? ==> LoadWindow(ini, "idle_timeout_seconds", 0.5, IdleTimeoutMessage, toReal) == Ok(r.value.idleTimeoutSeconds)
    ensures r.Ok? ==> LoadWindow(ini, "dedup_window_seconds", 0.2, DedupWindowMessage, toReal) == Ok(r.value.dedupWindowSeconds)
    ensures r.Ok? ==> Some(r.value.sendMode) == SendModeNamed(Choice(Get(ini, "output", "send_mode", "on_enter"), "on_enter"))
  {
    var encoding := Strip(Get(ini, "output", "encoding", "utf-8"));
    var lineEndMode := Choice(Get(ini, "output", "line_end_mode", "literal"), "literal");
    if lineEndMode !in {"literal", "escape"} then Err(LineEndModeMessage)
    else match ParseLineEndAsWritten(Get(ini, "output", "line_end", "\r\n"), lineEndMode)
      case Err(e) => Err(e)
      case Ok(lineEnd) =>
        match GetBool(ini, "output", "send_on_enter", true)
        case Err(e) => Err(e)
        case Ok(sendOnEnter) =>
          match SendModeNamed(Choice(Get(ini, "output", "send_mode", "on_enter"), "on_enter"))
          case None => Err(SendModeMessage)
          case Some(sendMode) =>
            match LoadWindow(ini, "idle_timeout_seconds", 0.5, IdleTimeoutMessage, toReal)
            case Err(e) => Err(e)
            case Ok(idle) =>
              match LoadWindow(ini, "dedup_window_seconds", 0.2, DedupWindowMessage, toReal)
              case Err(e) => Err(e)
              case Ok(dedup) =>
                Ok(OutputConfig(encoding, "strict", lineEnd, lineEndMode, DefaultTerminatorKeys,
                                sendOnEnter, sendMode, idle, dedup))
  }

  /** load_config on a file that was read: the three sections must be
      present, then each section is validated in the order of the source. */
  function LoadConfig(ini: Ini, toReal: string -> Option<real>): (r: Result<AppConfig, string>)
    ensures MissingSections(ini) != [] ==> r == Err(MissingSectionsMessage(MissingSections(ini)))
    ensures r.Ok? ==> ("input" in ini && "serial" in ini && "output" in ini
      && LoadInput(ini) == Ok(r.value.input)
      && LoadSerial(ini, toReal) == Ok(r.value.serial)
      && LoadOutput(ini, toReal) == Ok(r.value.output))
    ensures MissingSections(ini) == [] ==> "input" in ini && "serial" in ini && "output" in ini
    ensures MissingSections(ini) == [] && LoadInput(ini).Err? ==> r == Err(LoadInput(ini).error)
    ensures MissingSections(ini) == [] && LoadInput(ini).Ok? && LoadSerial(ini, toReal).Err? ==> r == Err(LoadSerial(ini, toReal).error)
    ensures MissingSections(ini) == [] && LoadInput(ini).Ok? && LoadSerial(ini, toReal).Ok? && LoadOutput(ini, toReal).Err? ==>
      r == Err(LoadOutput(ini, toReal).error)
    ensures MissingSections(ini) == [] && LoadInput(ini).Ok? && LoadSerial(ini, toReal).Ok? && LoadOutput(ini, toReal).Ok? ==>
      r == Ok(AppConfig(LoadInput(ini).value, LoadSerial(ini, toReal).value, LoadOutput(ini, toReal).value))
  {
    var missing := MissingSections(ini);
    if missing != [] then Err(MissingSectionsMessage(missing))
    else
      assert "input" in ini && "output" in ini && "serial" in ini by {
        assert forall s :: s in RequiredSections ==> s in ini;
      }
      match LoadInput(ini)
      case Err(e) => Err(e)
      case Ok(input) =>
        match LoadSerial(ini, toReal)
        case Err(e) => Err(e)
        case Ok(serial) =>
          match LoadOutput(ini, toReal)
          case Err(e) => Err(e)
          case Ok(output) => Ok(AppConfig(input, serial, output))
  }
}

/** What load_config guarantees about the configuration it returns, and the
    cases of tests/test_config.py. */
module ConfigFacts {
  import opened Common
  import opened IntParse
  import opened IntRoundTrip
  import opened Escapes
  import EscapeFacts
  import opened Config

  /** A configuration that loads has a non-blank port, a known line-end mode,
      non-negative idle and dedup windows, and VID/PID parsed from the text. */
  lemma LoadedConfigValid(ini: Ini, toReal: string -> Option<real>)
    requires LoadConfig(ini, toReal).Ok?
    ensures "input" in ini && "serial" in ini && "output" in ini
    ensures var c := LoadConfig(ini, toReal).value;
      && c.serial.port != [] && c.serial.port == Strip(Get(ini, "serial", "port", ""))
      && c.output.lineEndMode in {"literal", "escape"}
      && c.output.idleTimeoutSeconds >= 0.0
      && c.output.dedupWindowSeconds >= 0.0
      && ParseOptionalInt(GetOptional(ini, "input", "vendor_id"), "vendor_id") == Ok(c.input.vendorId)
      && ParseOptionalInt(GetOptional(ini, "input", "product_id"), "product_id") == Ok(c.input.productId)
      && ParseLineEndAsWritten(Get(ini, "output", "line_end", "\r\n"), c.output.lineEndMode) == Ok(c.output.lineEnd)
  {
    var c := LoadConfig(ini, toReal).value;
    assert LoadSerial(ini, toReal) == Ok(c.serial);
    assert LoadOutput(ini, toReal) == Ok(c.output);
    assert LoadInput(ini) == Ok(c.input);
  }

  /** load_config reads the line end as written (UTF-8 bytes through
      unicode_escape); on an ASCII setting that is also the corrected
      reading, so the two differ only on non-ASCII text. */
  lemma AsciiLineEndAgrees(ini: Ini, toReal: string -> Option<real>)
    requires "output" in ini && IsAscii(Get(ini, "output", "line_end", "\r\n"))
    requires LoadConfig(ini, toReal).Ok?
    ensures ParseLineEnd(Get(ini, "output", "line_end", "\r\n"), LoadConfig(ini, toReal).value.output.lineEndMode)
            == Ok(LoadConfig(ini, toReal).value.output.lineEnd)
  {
    var c := LoadConfig(ini, toReal).value;
    LoadedConfigValid(ini, toReal);
    EscapeFacts.AsWrittenAgreesOnAscii(Get(ini, "output", "line_end", "\r\n"), c.output.lineEndMode);
  }

  /** A blank or missing serial.port is rejected once the input section has
      loaded. */
  lemma PortRequired(ini: Ini, toReal: string -> Option<real>)
    requires "input" in ini && "serial" in ini && "output" in ini
    requires LoadInput(ini).Ok?
    requires Strip(Get(ini, "serial", "port", "")) == []
    ensures LoadConfig(ini, toReal) == Err(PortRequiredMessage)
  {
    assert MissingSections(ini) == [];
  }

  /** A negative idle timeout or dedup window never loads. */
  lemma NegativeWindowsRejected(ini: Ini, toReal: string -> Option<real>, option: string)
    requires "output" in ini && option in ini["output"]
    requires option == "idle_timeout_seconds" || option == "dedup_window_seconds"
    requires toReal(ini["output"][option]).Some? && toReal(ini["output"][option]).value < 0.0
    ensures !LoadConfig(ini, toReal).Ok?
    ensures option == "idle_timeout_seconds" ==>
      LoadWindow(ini, option, 0.5, IdleTimeoutMessage, toReal) == Err(IdleTimeoutMessage)
    ensures option == "dedup_window_seconds" ==>
      LoadWindow(ini, option, 0.2, DedupWindowMessage, toReal) == Err(DedupWindowMessage)
  {
    var fallback := if option == "idle_timeout_seconds" then 0.5 else 0.2;
    var message := if option == "idle_timeout_seconds" then IdleTimeoutMessage else DedupWindowMessage;
    assert LoadWindow(ini, option, fallback, message, toReal).Err?;
  }

  /** send_mode accepts its three names in any case and with surrounding
      whitespace, and a blank value means on_enter. */
  lemma SendModeChoice(raw: string)
    ensures SendModeNamed(Choice(raw, "on_enter")).Some? <==>
      Strip(raw) == [] || Lower(Strip(raw)) in {"on_enter", "per_char", "idle_timeout"}
    ensures Strip(raw) == [] ==> SendModeNamed(Choice(raw, "on_enter")) == Some(OnEnter)
  {
  }

  /** Every send mode is read back from its own name. */
  lemma SendModeNameRoundTrip(m: SendMode)
    ensures SendModeNamed(SendModeName(m)) == Some(m)
  {
  }

  /** getboolean reads "true"/"false" in any letter case. */
  lemma BooleanNames()
    ensures BooleanState("true") == Ok(true) && BooleanState("TRUE") == Ok(true)
    ensures BooleanState("Off") == Ok(false)
    ensures BooleanState("maybe").Err?
  {
    assert Lower("TRUE") == "true";
    assert Lower("Off") == "off";
    assert Lower("maybe") == "maybe";
  }

  /** The missing sections are reported in sorted order. */
  lemma MissingSectionsExample(toReal: string -> Option<real>)
    ensures LoadConfig(map["input" := map[]], toReal) == Err(MissingSectionsMessage(["output", "serial"]))
  {
    var ini: Ini := map["input" := map[]];
    assert "output" !in ini && "serial" !in ini;
    assert MissingSections(ini) == ["output", "serial"];
  }

  /** The labels are joined with ", ". */
  lemma MissingSectionsMessageExample()
    ensures JoinComma(["output", "serial"]) == "output, serial"
  {
    assert ["output", "serial"][1..] == ["serial"];
  }

  /** An input section whose IDs parse and whose grab option is absent loads. */
  lemma InputLoads(ini: Ini, vendor: string, product: string, v: int, p: int)
    requires "input" in ini && "grab" !in ini["input"]
    requires GetOptional(ini, "input", "vendor_id") == Some(vendor)
    requires GetOptional(ini, "input", "product_id") == Some(product)
    requires ParseOptionalInt(Some(vendor), "vendor_id") == Ok(Some(v))
    requires ParseOptionalInt(Some(product), "product_id") == Ok(Some(p))
    ensures LoadInput(ini).Ok? && LoadInput(ini).value.vendorId == Some(v) && LoadInput(ini).value.productId == Some(p)
  {
    assert GetBool(ini, "input", "grab", false) == Ok(false);
  }

  /** tests/test_config.py: hexadecimal VID/PID in the input section. */
  lemma HexVidPidLoads(ini: Ini)
    requires "input" in ini && "grab" !in ini["input"]
    requires GetOptional(ini, "input", "vendor_id") == Some("0x1234")
    requires GetOptional(ini, "input", "product_id") == Some("0xabcd")
    ensures LoadInput(ini).Ok? && LoadInput(ini).value.vendorId == Some(0x1234) && LoadInput(ini).value.productId == Some(0xABCD)
  {
    HexExamples();
    InputLoads(ini, "0x1234", "0xabcd", 0x1234, 0xABCD);
  }

  /** tests/test_config.py: a file without serial.port is rejected. */
  lemma MissingPortRejected(toReal: string -> Option<real>)
    ensures LoadConfig(map["input" := map["mode" := "evdev"],
                           "serial" := map["baudrate" := "9600"],
                           "output" := map["encoding" := "utf-8", "line_end" := "\r\n"]], toReal)
            == Err(PortRequiredMessage)
  {
    var ini: Ini := map["input" := map["mode" := "evdev"],
                        "serial" := map["baudrate" := "9600"],
                        "output" := map["encoding" := "utf-8", "line_end" := "\r\n"]];
    assert GetOptional(ini, "input", "vendor_id") == None;
    assert GetOptional(ini, "input", "product_id") == None;
    assert GetBool(ini, "input", "grab", false) == Ok(false);
    assert Get(ini, "serial", "port", "") == "";
    PortRequired(ini, toReal);
  }
}
