/** Choosing the input device (key2ser/runner.py:49-51, 176-295): an
    explicit path first, otherwise the devices whose VID/PID match, with a
    score that breaks ties only when one device is strictly ahead. The
    evdev library and the filesystem are values: what each device reports
    and what opening, listing and probing a path answer. */
module Devices {
  import opened Common
  import opened Config
  import opened Failures

  /** What an InputDevice shows the selection: info.vendor, info.product,
      name, phys and uniq (None where the attribute is missing or None), and
      the EV_KEY list of capabilities() ([] when absent), None when
      capabilities() raises OSError. */
  datatype DeviceInfo = DeviceInfo(
    vendor: int,
    product: int,
    name: Option<string>,
    phys: Option<string>,
    uniq: Option<string>,
    keyCaps: Option<seq<int>>)

  /** evdev.ecodes as a table from key names to codes. */
  type Codes = map<string, int>

  /** _match_device_info (key2ser/runner.py:49-51). */
  predicate MatchDeviceInfo(d: DeviceInfo, cfg: InputConfig) {
    cfg.vendorId == Some(d.vendor) && cfg.productId == Some(d.product)
  }

  /** Python truthiness of an optional string. */
  predicate Truthy(v: Option<string>) {
    v.Some? && v.value != ""
  }

  /** _normalize_device_hint (key2ser/runner.py:176-178). */
  function NormalizeDeviceHint(value: Option<string>): (r: string)
    ensures !Truthy(value) ==> r == ""
    ensures value.Some? ==> |r| == |value.value|
    ensures value.Some? ==> forall i :: 0 <= i < |r| ==> r[i] == LowerChar(value.value[i])
  {
    if Truthy(value) then Lower(value.value) else ""
  }

  /** Whether some key named in `keys` has a code among the device's EV_KEY
      capabilities. */
  predicate HasKeys(d: DeviceInfo, keys: seq<string>, codes: Codes) {
    d.keyCaps.Some? && exists i :: 0 <= i < |keys| && keys[i] in codes && codes[keys[i]] in d.keyCaps.value
  }

  /** _device_has_keys (key2ser/runner.py:182-196): a capabilities() that
      raises and an empty capability list both answer false. */
  method DeviceHasKeys(d: DeviceInfo, keys: seq<string>, codes: Codes) returns (found: bool)
    ensures found == HasKeys(d, keys, codes)
  {
    if d.keyCaps.None? {
      return false;
    }
    var caps := d.keyCaps.value;
    if caps == [] {
      return false;
    }
    var keySet := set c | c in caps;
    for i := 0 to |keys|
      invariant forall k :: 0 <= k < i ==> !(keys[k] in codes && codes[keys[k]] in caps)
    {
      if keys[i] in codes && codes[keys[i]] in keySet {
        return true;
      }
    }
    return false;
  }

  /** The name hint of _score_device: a non-empty device_name_contains
      occurs, ignoring case, in the name, phys or uniq. */
  predicate NameHintMatches(d: DeviceInfo, cfg: InputConfig) {
    Truthy(cfg.deviceNameContains)
    && var hint := Lower(cfg.deviceNameContains.value);
       IsSubstring(hint, NormalizeDeviceHint(d.name))
       || IsSubstring(hint, NormalizeDeviceHint(d.phys))
       || IsSubstring(hint, NormalizeDeviceHint(d.uniq))
  }

  /** _score_device (key2ser/runner.py:200-212): two points for a preferred
      key, one for the name hint. */
  function ScoreDevice(d: DeviceInfo, cfg: InputConfig, codes: Codes): (r: int)
    ensures 0 <= r <= 3
    ensures r >= 2 <==> cfg.preferEventHasKeys != [] && HasKeys(d, cfg.preferEventHasKeys, codes)
    ensures r % 2 == 1 <==> NameHintMatches(d, cfg)
  {
    (if cfg.preferEventHasKeys != [] && HasKeys(d, cfg.preferEventHasKeys, codes) then 2 else 0)
    + (if NameHintMatches(d, cfg) then 1 else 0)
  }

  /** The scores of the candidates, in order. */
  function Scores(m: seq<DeviceInfo>, cfg: InputConfig, codes: Codes): (r: seq<int>)
    ensures |r| == |m|
    ensures forall i :: 0 <= i < |m| ==> r[i] == ScoreDevice(m[i], cfg, codes)
  {
    seq(|m|, i requires 0 <= i < |m| => ScoreDevice(m[i], cfg, codes))
  }

  /** The first position of a highest score: where a stable sort by
      descending score puts its first entry. */
  function Best(scores: seq<int>): (r: nat)
    requires scores != []
    ensures r < |scores|
    ensures forall j :: 0 <= j < |scores| ==> scores[j] <= scores[r]
    ensures forall j :: 0 <= j < r ==> scores[j] < scores[r]
  {
    if |scores| == 1 then 0
    else
      var b := Best(scores[..|scores| - 1]);
      if scores[|scores| - 1] > scores[b] then |scores| - 1 else b
  }

  /** Candidate `w` scores above zero and above every other candidate. */
  predicate Dominates(m: seq<DeviceInfo>, cfg: InputConfig, codes: Codes, w: int)
    requires 0 <= w < |m|
  {
    ScoreDevice(m[w], cfg, codes) > 0
    && forall j :: 0 <= j < |m| && j != w ==> ScoreDevice(m[j], cfg, codes) < ScoreDevice(m[w], cfg, codes)
  }

  /** _select_single_device (key2ser/runner.py:215-237), as the position of
      the chosen candidate: the only one, or the best when its score is
      positive and the runner-up's is lower. Closing the others is done by
      the caller. */
  function SelectSingleDevice(m: seq<DeviceInfo>, cfg: InputConfig, codes: Codes): (r: Option<nat>)
    ensures r.Some? ==> r.value < |m|
    ensures |m| == 1 ==> r == Some(0)
    ensures |m| > 1 && r.Some? ==> Dominates(m, cfg, codes, r.value)
    ensures |m| > 1 && r.None? ==> forall w :: 0 <= w < |m| ==> !Dominates(m, cfg, codes, w)
    ensures m == [] ==> r.None?
  {
    if m == [] then None
    else if |m| == 1 then Some(0)
    else
      var scores := Scores(m, cfg, codes);
      var b := Best(scores);
      if scores[b] > 0 && forall j | 0 <= j < |scores| && j != b :: scores[j] < scores[b] then Some(b)
      else None
  }

  /** One entry of list_devices() as InputDevice(path) turns out. */
  datatype Opening = Opened(device: DeviceInfo) | PermissionDenied | OpenFailed

  predicate IsMatch(devices: seq<Opening>, cfg: InputConfig, j: int) {
    0 <= j < |devices| && devices[j].Opened? && MatchDeviceInfo(devices[j].device, cfg)
  }

  function ScoreAt(devices: seq<Opening>, cfg: InputConfig, codes: Codes, j: int): int
    requires 0 <= j < |devices| && devices[j].Opened?
  {
    ScoreDevice(devices[j].device, cfg, codes)
  }

  /** `w` is the one matching device. */
  ghost predicate OnlyMatch(devices: seq<Opening>, cfg: InputConfig, w: int) {
    IsMatch(devices, cfg, w) && forall j :: IsMatch(devices, cfg, j) ==> j == w
  }

  /** `w` is a matching device whose score is positive and above every
      other matching device's. */
  ghost predicate Winner(devices: seq<Opening>, cfg: InputConfig, codes: Codes, w: int) {
    IsMatch(devices, cfg, w) && ScoreAt(devices, cfg, codes, w) > 0
    && forall j :: IsMatch(devices, cfg, j) && j != w ==> ScoreAt(devices, cfg, codes, j) < ScoreAt(devices, cfg, codes, w)
  }

  ghost predicate Distinct(s: seq<nat>) {
    forall a, b :: 0 <= a < b < |s| ==> s[a] != s[b]
  }

  /** What _select_device_by_vid_pid (key2ser/runner.py:242-270) promises
      for the listed devices: the chosen position `r`, or the exception, and
      the positions it closed (each once). Every opened device except the
      chosen one is closed. A device is chosen iff it is the only match or
      it wins on score; with no match the error is DeviceAccessError when
      some device failed to open and DeviceNotFoundError otherwise. */
  ghost predicate VidPidOutcome(devices: seq<Opening>, cfg: InputConfig, codes: Codes,
                                r: Result<nat, Failure>, closed: seq<nat>) {
    ClosesAllBut(devices, closed, r)
    && (r.Ok? ==> OnlyMatch(devices, cfg, r.value) || Winner(devices, cfg, codes, r.value))
    && (r.Err? ==> forall w :: !OnlyMatch(devices, cfg, w) && !Winner(devices, cfg, codes, w))
    && (r.Err? ==> r.error == (if exists j :: IsMatch(devices, cfg, j) then DeviceNotFound(AmbiguousVidPidMessage)
                               else if exists j :: 0 <= j < |devices| && !devices[j].Opened? then DeviceAccess(DeviceOpenFailedMessage)
                               else DeviceNotFound(VidPidNotFoundMessage)))
  }

  /** The closing rule of VidPidOutcome: every opened device except the
      chosen one, each once. */
  ghost predicate ClosesAllBut(devices: seq<Opening>, closed: seq<nat>, r: Result<nat, Failure>) {
    Distinct(closed)
    && forall j :: j in closed <==> 0 <= j < |devices| && devices[j].Opened? && !(r.Ok? && r.value == j)
  }

  /** _select_device_by_vid_pid (key2ser/runner.py:242-270) over the
      listed devices; returns the position of the chosen device and the
      positions closed, in order. */
  method SelectDeviceByVidPid(devices: seq<Opening>, cfg: InputConfig, codes: Codes)
    returns (r: Result<nat, Failure>, closed: seq<nat>)
    ensures VidPidOutcome(devices, cfg, codes, r, closed)
  {
    var matches, accessError;
    matches, closed, accessError := OpenAndMatch(devices, cfg);
    if matches == [] {
      r := Err(if accessError then DeviceAccess(DeviceOpenFailedMessage) else DeviceNotFound(VidPidNotFoundMessage));
      assert ClosesAllBut(devices, closed, r);
      return;
    }
    var candidates := seq(|matches|, k requires 0 <= k < |matches| => devices[matches[k]].device);
    assert IsMatch(devices, cfg, matches[0]);
    var picked := SelectSingleDevice(candidates, cfg, codes);
    if picked.Some? {
      var chosen := matches[picked.value];
      closed := CloseAllBut(closed, matches, chosen);
      r := Ok(chosen);
      ChosenWins(devices, cfg, codes, matches, candidates, picked.value);
      assert ClosesAllBut(devices, closed, r);
      return;
    }
    closed := CloseAllBut(closed, matches, |devices|);
    r := Err(DeviceNotFound(AmbiguousVidPidMessage));
    NoneWins(devices, cfg, codes, matches, candidates);
    assert ClosesAllBut(devices, closed, r);
  }

  /** The loop of _select_device_by_vid_pid: the matching positions in
      order, the opened non-matching positions it closes, and whether some
      device failed to open. */
  method OpenAndMatch(devices: seq<Opening>, cfg: InputConfig)
    returns (matches: seq<nat>, closed: seq<nat>, accessError: bool)
    ensures Distinct(matches) && Distinct(closed)
    ensures forall k :: 0 <= k < |matches| ==> IsMatch(devices, cfg, matches[k])
    ensures forall j :: j in matches <==> IsMatch(devices, cfg, j)
    ensures forall j :: j in closed <==> 0 <= j < |devices| && devices[j].Opened? && !IsMatch(devices, cfg, j)
    ensures accessError <==> exists j :: 0 <= j < |devices| && !devices[j].Opened?
  {
    matches, closed, accessError := [], [], false;
    for i := 0 to |devices|
      invariant Increasing(matches) && Increasing(closed)
      invariant forall k :: 0 <= k < |matches| ==> matches[k] < i && IsMatch(devices, cfg, matches[k])
      invariant forall k :: 0 <= k < |closed| ==> closed[k] < i
      invariant forall j :: j in matches <==> 0 <= j < i && IsMatch(devices, cfg, j)
      invariant forall j :: j in closed <==> 0 <= j < i && devices[j].Opened? && !IsMatch(devices, cfg, j)
      invariant accessError <==> exists j :: 0 <= j < i && !devices[j].Opened?
    {
      match devices[i]
      case Opened(d) =>
        if MatchDeviceInfo(d, cfg) {
          matches := matches + [i];
        } else {
          closed := closed + [i];
        }
      case _ =>
        accessError := true;
    }
    IncreasingDistinct(closed);
    IncreasingDistinct(matches);
  }

  ghost predicate Increasing(s: seq<nat>) {
    forall a, b :: 0 <= a < b < |s| ==> s[a] < s[b]
  }

  lemma IncreasingDistinct(s: seq<nat>)
    requires Increasing(s)
    ensures Distinct(s)
  {
  }

  /** Closes every position of `matches` except `keep`, after `closed`. */
  method CloseAllBut(closed: seq<nat>, matches: seq<nat>, keep: nat) returns (out: seq<nat>)
    requires Distinct(closed) && Distinct(matches)
    requires forall j :: j in closed ==> j !in matches
    ensures Distinct(out)
    ensures forall j :: j in out <==> j in closed || (j in matches && j != keep)
  {
    out := closed;
    for k := 0 to |matches|
      invariant Distinct(out)
      invariant forall j :: j in out <==> j in closed || (j in matches[..k] && j != keep)
    {
      if matches[k] != keep {
        assert matches[k] !in matches[..k];
        out := out + [matches[k]];
      }
      assert matches[..k + 1] == matches[..k] + [matches[k]];
    }
    assert matches[..|matches|] == matches;
  }

  /** `candidates` holds the devices at the positions `matches`, which are
      exactly the matching positions. */
  ghost predicate Lifted(devices: seq<Opening>, cfg: InputConfig, matches: seq<nat>, candidates: seq<DeviceInfo>) {
    |candidates| == |matches|
    && (forall k :: 0 <= k < |matches| ==> IsMatch(devices, cfg, matches[k]))
    && (forall k :: 0 <= k < |matches| ==> candidates[k] == devices[matches[k]].device)
    && (forall j :: IsMatch(devices, cfg, j) ==> j in matches)
  }

  /** The candidate picked among the matches is the only match or the
      winner among all devices. */
  lemma ChosenWins(devices: seq<Opening>, cfg: InputConfig, codes: Codes, matches: seq<nat>,
                   candidates: seq<DeviceInfo>, p: nat)
    requires Distinct(matches) && matches != []
    requires Lifted(devices, cfg, matches, candidates)
    requires SelectSingleDevice(candidates, cfg, codes) == Some(p)
    ensures p < |matches|
    ensures OnlyMatch(devices, cfg, matches[p]) || Winner(devices, cfg, codes, matches[p])
  {
    if |matches| == 1 {
      forall j | IsMatch(devices, cfg, j) ensures j == matches[0] {
        assert j in matches;
      }
    } else {
      DominatesLifts(devices, cfg, codes, matches, candidates, p);
    }
  }

  lemma DominatesLifts(devices: seq<Opening>, cfg: InputConfig, codes: Codes, matches: seq<nat>,
                       candidates: seq<DeviceInfo>, p: nat)
    requires Distinct(matches) && Lifted(devices, cfg, matches, candidates)
    requires p < |candidates| && Dominates(candidates, cfg, codes, p)
    ensures Winner(devices, cfg, codes, matches[p])
  {
    var w := matches[p];
    assert ScoreAt(devices, cfg, codes, w) == ScoreDevice(candidates[p], cfg, codes);
    forall j | IsMatch(devices, cfg, j) && j != w
      ensures ScoreAt(devices, cfg, codes, j) < ScoreAt(devices, cfg, codes, w)
    {
      assert j in matches;
      var k :| 0 <= k < |matches| && matches[k] == j;
      assert ScoreAt(devices, cfg, codes, j) == ScoreDevice(candidates[k], cfg, codes);
    }
  }

  /** When no candidate is picked among several matches, no device is the
      only match and none wins. */
  lemma NoneWins(devices: seq<Opening>, cfg: InputConfig, codes: Codes, matches: seq<nat>,
                 candidates: seq<DeviceInfo>)
    requires Distinct(matches) && matches != []
    requires Lifted(devices, cfg, matches, candidates)
    requires SelectSingleDevice(candidates, cfg, codes).None?
    ensures forall w :: !OnlyMatch(devices, cfg, w) && !Winner(devices, cfg, codes, w)
  {
    assert |matches| > 1;
    forall w ensures !OnlyMatch(devices, cfg, w) && !Winner(devices, cfg, codes, w) {
      if IsMatch(devices, cfg, w) {
        assert w in matches;
        var p :| 0 <= p < |matches| && matches[p] == w;
        var other := if p == 0 then 1 else 0;
        assert IsMatch(devices, cfg, matches[other]) && matches[other] != w;
        if Winner(devices, cfg, codes, w) {
          WinnerDominates(devices, cfg, codes, matches, candidates, p);
        }
      }
    }
  }

  lemma WinnerDominates(devices: seq<Opening>, cfg: InputConfig, codes: Codes, matches: seq<nat>,
                        candidates: seq<DeviceInfo>, p: nat)
    requires Distinct(matches) && Lifted(devices, cfg, matches, candidates)
    requires p < |candidates| && Winner(devices, cfg, codes, matches[p])
    ensures Dominates(candidates, cfg, codes, p)
  {
    assert ScoreAt(devices, cfg, codes, matches[p]) == ScoreDevice(candidates[p], cfg, codes);
    forall k | 0 <= k < |candidates| && k != p
      ensures ScoreDevice(candidates[k], cfg, codes) < ScoreDevice(candidates[p], cfg, codes)
    {
      assert IsMatch(devices, cfg, matches[k]);
      assert ScoreAt(devices, cfg, codes, matches[k]) == ScoreDevice(candidates[k], cfg, codes);
    }
  }

  /** Which device the configuration asks for, as open_input_device
      returns it: opened by path, or chosen at a position of the listing. */
  datatype Picked = PathDevice(device: DeviceInfo) | ListedDevice(index: nat)

  /** What the host answers: whether a path exists, what opening it gives,
      and list_devices() with each entry opened (None when listing raises
      OSError). */
  datatype Host = Host(
    pathExists: string -> bool,
    openPath: string -> Opening,
    listing: Option<seq<Opening>>)

  /** The explicit-path branch of open_input_device (key2ser/runner.py:276-285). */
  function OpenByPath(path: string, host: Host): (r: Result<Picked, Failure>)
    ensures r.Ok? <==> host.pathExists(path) && host.openPath(path).Opened?
    ensures r.Ok? ==> r.value == PathDevice(host.openPath(path).device)
    ensures !host.pathExists(path) ==> r == Err(DeviceNotFound(DevicePathMissingPrefix + path))
    ensures r.Err? && host.pathExists(path) ==> r.error.DeviceAccess?
    ensures host.pathExists(path) && host.openPath(path) == PermissionDenied ==> r == Err(DeviceAccess(DevicePermissionMessage))
    ensures host.pathExists(path) && host.openPath(path) == OpenFailed ==> r == Err(DeviceAccess(DeviceOpenFailedMessage))
  {
    if !host.pathExists(path) then Err(DeviceNotFound(DevicePathMissingPrefix + path))
    else match host.openPath(path)
      case Opened(d) => Ok(PathDevice(d))
      case PermissionDenied => Err(DeviceAccess(DevicePermissionMessage))
      case OpenFailed => Err(DeviceAccess(DeviceOpenFailedMessage))
  }

  /** The outcome of the VID/PID branch as a position. */
  function AsPosition(r: Result<Picked, Failure>): Result<nat, Failure> {
    if r.Ok? then Ok(if r.value.ListedDevice? then r.value.index else 0) else Err(r.error)
  }

  /** open_input_device (key2ser/runner.py:274-295): a non-empty device
      path takes precedence over VID/PID, and VID/PID selection runs only
      when both are given. */
  method OpenInputDevice(cfg: InputConfig, host: Host, codes: Codes)
    returns (r: Result<Picked, Failure>, closed: seq<nat>)
    ensures Truthy(cfg.device) ==> r == OpenByPath(cfg.device.value, host) && closed == []
    ensures !Truthy(cfg.device) && cfg.vendorId.Some? && cfg.productId.Some? && host.listing.None? ==>
              r == Err(DeviceAccess(ListDevicesFailedMessage)) && closed == []
    ensures !Truthy(cfg.device) && cfg.vendorId.Some? && cfg.productId.Some? && host.listing.Some? ==>
              (r.Ok? ==> r.value.ListedDevice?)
              && VidPidOutcome(host.listing.value, cfg, codes, AsPosition(r), closed)
    ensures !Truthy(cfg.device) && !(cfg.vendorId.Some? && cfg.productId.Some?) ==>
              r == Err(DeviceNotFound(NoDeviceSpecifiedMessage)) && closed == []
  {
    if Truthy(cfg.device) {
      return OpenByPath(cfg.device.value, host), [];
    }
    if cfg.vendorId.Some? && cfg.productId.Some? {
      if host.listing.None? {
        return Err(DeviceAccess(ListDevicesFailedMessage)), [];
      }
      var s;
      s, closed := SelectDeviceByVidPid(host.listing.value, cfg, codes);
      r := if s.Ok? then Ok(ListedDevice(s.value)) else Err(s.error);
      assert AsPosition(r) == s;
      return;
    }
    return Err(DeviceNotFound(NoDeviceSpecifiedMessage)), [];
  }
}

/** What device selection promises, stated over the functions and the
    outcome predicate above. */
module DeviceFacts {
  import opened Common
  import opened Config
  import opened Failures
  import opened Devices

  /** The selection outcome is determined by the devices: two outcomes that
      both meet it choose the same device, raise the same error and close
      the same devices. */
  lemma {:induction false} VidPidDeterministic(devices: seq<Opening>, cfg: InputConfig, codes: Codes,
                                               r1: Result<nat, Failure>, c1: seq<nat>,
                                               r2: Result<nat, Failure>, c2: seq<nat>)
    requires VidPidOutcome(devices, cfg, codes, r1, c1) && VidPidOutcome(devices, cfg, codes, r2, c2)
    ensures r1 == r2
    ensures forall j :: j in c1 <==> j in c2
  {
    if r1.Ok? && r2.Ok? {
      ChoiceUnique(devices, cfg, codes, r1.value, r2.value);
    }
  }

  /** At most one device is the only match or the winner. */
  lemma ChoiceUnique(devices: seq<Opening>, cfg: InputConfig, codes: Codes, a: nat, b: nat)
    requires OnlyMatch(devices, cfg, a) || Winner(devices, cfg, codes, a)
    requires OnlyMatch(devices, cfg, b) || Winner(devices, cfg, codes, b)
    ensures a == b
  {
    assert IsMatch(devices, cfg, a) && IsMatch(devices, cfg, b);
  }

  /** The chosen device is never closed, and every other device that was
      opened is closed exactly once. */
  lemma ChosenKeptOthersClosed(devices: seq<Opening>, cfg: InputConfig, codes: Codes, r: Result<nat, Failure>, closed: seq<nat>)
    requires VidPidOutcome(devices, cfg, codes, r, closed)
    ensures r.Ok? ==> IsMatch(devices, cfg, r.value) && r.value !in closed
    ensures forall j :: 0 <= j < |devices| && devices[j].Opened? && !(r.Ok? && r.value == j) ==>
              multiset(closed)[j] == 1
  {
    forall j | 0 <= j < |devices| && devices[j].Opened? && !(r.Ok? && r.value == j)
      ensures multiset(closed)[j] == 1
    {
      OccursOnce(closed, j);
    }
  }

  lemma {:induction false} OccursOnce(s: seq<nat>, x: nat)
    requires Distinct(s) && x in s
    ensures multiset(s)[x] == 1
    decreases |s|
  {
    if s[0] == x {
      assert x !in s[1..];
      assert s == [s[0]] + s[1..];
    } else {
      OccursOnce(s[1..], x);
      assert s == [s[0]] + s[1..];
    }
  }

  /** A single matching device is chosen whatever its score. */
  lemma SingleMatchChosen(devices: seq<Opening>, cfg: InputConfig, codes: Codes, r: Result<nat, Failure>,
                          closed: seq<nat>, w: nat)
    requires VidPidOutcome(devices, cfg, codes, r, closed) && OnlyMatch(devices, cfg, w)
    ensures r == Ok(w)
  {
    if r.Ok? {
      assert IsMatch(devices, cfg, r.value);
    }
  }

  /** Matching ignores the case of the hint. */
  lemma {:induction false} HintIgnoresCase(d: DeviceInfo, cfg: InputConfig, hint: string)
    requires cfg.deviceNameContains == Some(hint)
    ensures NameHintMatches(d, cfg) == NameHintMatches(d, cfg.(deviceNameContains := Some(Lower(hint))))
  {
    LowerTwice(hint);
  }

  lemma LowerTwice(s: string)
    ensures Lower(Lower(s)) == Lower(s)
  {
    assert forall i :: 0 <= i < |s| ==> Lower(Lower(s))[i] == Lower(s)[i];
  }

  /** tests/test_runner.py:160-181: a permission error on the configured
      path is DeviceAccessError with the access message. */
  lemma PermissionErrorExample(path: string, host: Host)
    requires host.pathExists(path) && host.openPath(path) == PermissionDenied
    ensures OpenByPath(path, host) == Err(DeviceAccess(DevicePermissionMessage))
  {
  }

  function Keyboard(vendor: int, product: int): DeviceInfo {
    DeviceInfo(vendor, product, None, None, None, None)
  }

  function TestConfig(hint: Option<string>, prefer: seq<string>): InputConfig {
    InputConfig("evdev", None, Some(0x1234), Some(0x5678), hint, prefer, false, 0.0)
  }

  /** tests/test_runner.py:205-224: the only listed device fails to open,
      so the error is DeviceAccessError with the open-failure message. */
  lemma OpenErrorExample(codes: Codes, r: Result<nat, Failure>, closed: seq<nat>)
    requires VidPidOutcome([OpenFailed], TestConfig(None, []), codes, r, closed)
    ensures r == Err(DeviceAccess(DeviceOpenFailedMessage)) && closed == []
  {
    var cfg := TestConfig(None, []);
    assert !IsMatch([OpenFailed], cfg, 0);
    assert forall j :: !IsMatch([OpenFailed], cfg, j);
    FirstIsMember(closed);
  }

  /** tests/test_runner.py:258-299: of a non-matching and a matching device
      the matching one is chosen and only the other is closed. */
  lemma ClosesUnmatchedExample(codes: Codes, r: Result<nat, Failure>, closed: seq<nat>)
    requires VidPidOutcome([Opened(Keyboard(0x1111, 0x2222)), Opened(Keyboard(0x1234, 0x5678))],
                           TestConfig(None, []), codes, r, closed)
    ensures r == Ok(1) && 0 in closed && 1 !in closed
  {
    var devices := [Opened(Keyboard(0x1111, 0x2222)), Opened(Keyboard(0x1234, 0x5678))];
    var cfg := TestConfig(None, []);
    assert !IsMatch(devices, cfg, 0);
    SingleMatchChosen(devices, cfg, codes, r, closed, 1);
  }

  /** tests/test_runner.py:302-343: two matching devices with no preferred
      keys and no hint both score 0, so both are closed and
      DeviceNotFoundError asks for an explicit device. */
  lemma AmbiguousExample(codes: Codes, r: Result<nat, Failure>, closed: seq<nat>)
    requires VidPidOutcome([Opened(Keyboard(0x1234, 0x5678)), Opened(Keyboard(0x1234, 0x5678))],
                           TestConfig(None, []), codes, r, closed)
    ensures r == Err(DeviceNotFound(AmbiguousVidPidMessage)) && 0 in closed && 1 in closed
  {
    var devices := [Opened(Keyboard(0x1234, 0x5678)), Opened(Keyboard(0x1234, 0x5678))];
    var cfg := TestConfig(None, []);
    assert ScoreAt(devices, cfg, codes, 0) == 0 && ScoreAt(devices, cfg, codes, 1) == 0;
    assert IsMatch(devices, cfg, 0) && IsMatch(devices, cfg, 1);
    forall w ensures !OnlyMatch(devices, cfg, w) && !Winner(devices, cfg, codes, w) {
      if IsMatch(devices, cfg, w) {
        assert ScoreAt(devices, cfg, codes, w) == 0;
      }
    }
    assert r.Err?;
  }

  /** tests/test_runner.py:346-395: with KEY_ENTER preferred, the device
      that has it scores 2 against 0 and is chosen. */
  lemma PreferredKeysExample(r: Result<nat, Failure>, closed: seq<nat>)
    requires VidPidOutcome([Opened(Keyboard(0x1234, 0x5678).(keyCaps := Some([]))),
                            Opened(Keyboard(0x1234, 0x5678).(keyCaps := Some([28])))],
                           TestConfig(None, ["KEY_ENTER"]), map["KEY_ENTER" := 28], r, closed)
    ensures r == Ok(1) && 0 in closed && 1 !in closed
  {
    var devices := [Opened(Keyboard(0x1234, 0x5678).(keyCaps := Some([]))),
                    Opened(Keyboard(0x1234, 0x5678).(keyCaps := Some([28])))];
    var cfg := TestConfig(None, ["KEY_ENTER"]);
    var codes := map["KEY_ENTER" := 28];
    assert HasKeys(devices[1].device, cfg.preferEventHasKeys, codes) by {
      assert cfg.preferEventHasKeys[0] in codes && codes[cfg.preferEventHasKeys[0]] in devices[1].device.keyCaps.value;
    }
    assert ScoreAt(devices, cfg, codes, 0) == 0 && ScoreAt(devices, cfg, codes, 1) == 2;
    assert Winner(devices, cfg, codes, 1);
    assert r.Ok?;
    ChoiceUnique(devices, cfg, codes, r.value, 1);
  }

  /** tests/test_runner.py:397-438: with the hint "scanner", the device
      named "Scanner Device" scores 1 against "Keyboard" and is chosen. */
  lemma NameHintExample(codes: Codes, r: Result<nat, Failure>, closed: seq<nat>, keyboard: string, scanner: string)
    requires keyboard == "Keyboard" && scanner == "Scanner Device"
    requires VidPidOutcome([Opened(Keyboard(0x1234, 0x5678).(name := Some(keyboard))),
                            Opened(Keyboard(0x1234, 0x5678).(name := Some(scanner)))],
                           TestConfig(Some("scanner"), []), codes, r, closed)
    ensures r == Ok(1) && 0 in closed && 1 !in closed
  {
    var devices := [Opened(Keyboard(0x1234, 0x5678).(name := Some(keyboard))),
                    Opened(Keyboard(0x1234, 0x5678).(name := Some(scanner)))];
    var cfg := TestConfig(Some("scanner"), []);
    KeyboardScoresZero(codes, keyboard);
    ScannerScoresOne(codes, scanner);
    assert ScoreAt(devices, cfg, codes, 0) == 0 && ScoreAt(devices, cfg, codes, 1) == 1;
    assert Winner(devices, cfg, codes, 1);
    assert r.Ok?;
    ChoiceUnique(devices, cfg, codes, r.value, 1);
  }

  lemma FirstIsMember(s: seq<nat>)
    ensures s == [] || s[0] in s
  {
  }

  lemma KeyboardScoresZero(codes: Codes, name: string)
    requires name == "Keyboard"
    ensures ScoreDevice(Keyboard(0x1234, 0x5678).(name := Some(name)), TestConfig(Some("scanner"), []), codes) == 0
  {
    LowerScanner();
    var n := NormalizeDeviceHint(Some(name));
    assert |n| == 8 && n[0] == 'k' && n[1] == 'e';
    forall i | 0 <= i <= |n| - 7 ensures !OccursAt("scanner", n, i) {
      assert n[i..i + 7][0] == n[i];
    }
  }

  lemma ScannerScoresOne(codes: Codes, name: string)
    requires name == "Scanner Device"
    ensures ScoreDevice(Keyboard(0x1234, 0x5678).(name := Some(name)), TestConfig(Some("scanner"), []), codes) == 1
  {
    LowerScanner();
    var n := NormalizeDeviceHint(Some(name));
    assert n[0] == 's' && n[1] == 'c' && n[2] == 'a' && n[3] == 'n' && n[4] == 'n' && n[5] == 'e' && n[6] == 'r';
    assert n[0..7] == "scanner";
    assert OccursAt("scanner", n, 0);
  }

  lemma LowerScanner()
    ensures Lower("scanner") == "scanner"
  {
  }
}
