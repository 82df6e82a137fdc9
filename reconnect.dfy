/** The reconnect policy of run_event_loop (key2ser/runner.py:849-884).
    What each pass of the loop meets (opening the device, grabbing it,
    the event loop ending) is a script of attempts; the sleeps and device
    closes the loop performs are a log of effects. */
module Reconnect {
  import opened Common
  import opened Config
  import opened Failures

  /** One pass of the `while True` body: open_input_device raises `failure`,
      or it opens a device, whose grab() raises OSError when `grabRaises`,
      and whose event loop then returns (ends == None) or raises. */
  datatype Attempt =
    | OpenFails(failure: Failure)
    | Opens(grabRaises: bool, ends: Option<Failure>)

  /** time.sleep(seconds), and closing the device opened by the attempt at
      a position of the script. */
  datatype Effect = Sleep(seconds: real) | Close(attempt: nat)

  /** How run_event_loop ends: it returns, it raises, or (in the model
      only) the script of attempts runs out while it would retry again. */
  datatype End = Returned | Raised(failure: Failure) | ScriptExhausted

  datatype Ran = Ran(end: End, effects: seq<Effect>)

  /** The exception a pass raises, None when the event loop returned. */
  function AttemptFailure(cfg: InputConfig, a: Attempt): (r: Option<Failure>)
    ensures a.OpenFails? ==> r == Some(a.failure)
    ensures a.Opens? && cfg.grab && a.grabRaises ==> r == Some(DeviceAccess(GrabFailedMessage))
    ensures a.Opens? && !(cfg.grab && a.grabRaises) ==> r == a.ends
  {
    match a
    case OpenFails(f) => Some(f)
    case Opens(grabRaises, ends) => if cfg.grab && grabRaises then Some(DeviceAccess(GrabFailedMessage)) else ends
  }

  /** The except clause: a connection error with a positive interval is
      retried. */
  predicate Retried(cfg: InputConfig, a: Attempt) {
    var f := AttemptFailure(cfg, a);
    f.Some? && IsConnectionError(f.value) && cfg.reconnectIntervalSeconds > 0.0
  }

  /** The finally clause: the device of the attempt at `i` is closed when
      it was opened. */
  function CloseOf(a: Attempt, i: nat): (r: seq<Effect>)
    ensures r == [] || r == [Close(i)]
  {
    if a.Opens? then [Close(i)] else []
  }

  /** The passes from position `i` on: sleep then close for a retried one
      (the finally clause runs after the except clause), close and stop for
      any other. */
  function Passes(cfg: InputConfig, attempts: seq<Attempt>, i: nat): Ran
    requires i <= |attempts|
    decreases |attempts| - i
  {
    if i == |attempts| then Ran(ScriptExhausted, [])
    else
      var a := attempts[i];
      var close := CloseOf(a, i);
      var f := AttemptFailure(cfg, a);
      if f.None? then Ran(Returned, close)
      else if Retried(cfg, a) then
        var rest := Passes(cfg, attempts, i + 1);
        Ran(rest.end, [Sleep(cfg.reconnectIntervalSeconds)] + close + rest.effects)
      else Ran(Raised(f.value), close)
  }

  /** run_event_loop (key2ser/runner.py:849-884) as a function of the
      attempts: only evdev mode is accepted. */
  function EventLoop(cfg: InputConfig, attempts: seq<Attempt>): Ran {
    if cfg.mode != "evdev" then Ran(Raised(ValueError(UnsupportedModeMessage)), [])
    else Passes(cfg, attempts, 0)
  }

  /** run_event_loop's `while True` loop. */
  method RunEventLoop(cfg: InputConfig, attempts: seq<Attempt>) returns (end: End, effects: seq<Effect>)
    ensures Ran(end, effects) == EventLoop(cfg, attempts)
  {
    effects := [];
    if cfg.mode != "evdev" {
      return Raised(ValueError(UnsupportedModeMessage)), effects;
    }
    var i := 0;
    while i < |attempts|
      invariant 0 <= i <= |attempts|
      invariant EventLoop(cfg, attempts) == Ran(Passes(cfg, attempts, i).end, effects + Passes(cfg, attempts, i).effects)
      decreases |attempts| - i
    {
      var a := attempts[i];
      var failure := AttemptFailure(cfg, a);
      var close := CloseOf(a, i);
      if failure.None? {
        return Returned, effects + close;
      }
      if !IsConnectionError(failure.value) || cfg.reconnectIntervalSeconds <= 0.0 {
        return Raised(failure.value), effects + close;
      }
      RetriedPass(cfg, attempts, i, effects);
      effects := effects + ([Sleep(cfg.reconnectIntervalSeconds)] + close);
      i := i + 1;
    }
    end := ScriptExhausted;
  }

  /** A retried pass adds its sleep and close in front of the later
      passes' effects. */
  lemma RetriedPass(cfg: InputConfig, attempts: seq<Attempt>, i: nat, before: seq<Effect>)
    requires i < |attempts| && Retried(cfg, attempts[i])
    ensures Passes(cfg, attempts, i).end == Passes(cfg, attempts, i + 1).end
    ensures before + Passes(cfg, attempts, i).effects
         == (before + ([Sleep(cfg.reconnectIntervalSeconds)] + CloseOf(attempts[i], i))) + Passes(cfg, attempts, i + 1).effects
  {
    var head := [Sleep(cfg.reconnectIntervalSeconds)] + CloseOf(attempts[i], i);
    var rest := Passes(cfg, attempts, i + 1).effects;
    assert Passes(cfg, attempts, i).effects == head + rest;
    assert before + (head + rest) == (before + head) + rest;
  }
}

/** What the reconnect policy promises, over Passes and EventLoop. */
module ReconnectFacts {
  import opened Common
  import opened Config
  import opened Failures
  import opened Reconnect

  /** The passes from `i` up to `k` were all retried. */
  ghost predicate ReachedFrom(cfg: InputConfig, attempts: seq<Attempt>, i: nat, k: nat)
    requires i <= k <= |attempts|
  {
    forall j :: i <= j < k ==> Retried(cfg, attempts[j])
  }

  lemma ReachedStep(cfg: InputConfig, attempts: seq<Attempt>, i: nat, k: nat)
    requires i < k <= |attempts|
    ensures ReachedFrom(cfg, attempts, i, k) <==> Retried(cfg, attempts[i]) && ReachedFrom(cfg, attempts, i + 1, k)
  {
  }

  /** Only devices that were opened are closed, and every one that is
      opened is: a Close(k) is logged iff attempt k opened a device and
      every attempt before it was retried. */
  lemma {:induction false} EachOpenedClosed(cfg: InputConfig, attempts: seq<Attempt>, i: nat, k: nat)
    requires i <= |attempts|
    ensures Close(k) in Passes(cfg, attempts, i).effects <==>
              i <= k < |attempts| && attempts[k].Opens? && ReachedFrom(cfg, attempts, i, k)
    decreases |attempts| - i
  {
    if i < |attempts| && Retried(cfg, attempts[i]) {
      EachOpenedClosed(cfg, attempts, i + 1, k);
      ClosesFrom(cfg, attempts, i + 1);
      if i < k <= |attempts| {
        ReachedStep(cfg, attempts, i, k);
      }
    }
  }

  /** The later passes close only devices at their own positions. */
  lemma {:induction false} ClosesFrom(cfg: InputConfig, attempts: seq<Attempt>, i: nat)
    requires i <= |attempts|
    ensures forall e :: e in Passes(cfg, attempts, i).effects && e.Close? ==> i <= e.attempt
    decreases |attempts| - i
  {
    if i < |attempts| && Retried(cfg, attempts[i]) {
      ClosesFrom(cfg, attempts, i + 1);
    }
  }

  /** No device is closed twice. */
  lemma {:induction false} ClosedOnce(cfg: InputConfig, attempts: seq<Attempt>, i: nat, k: nat)
    requires i <= |attempts|
    ensures multiset(Passes(cfg, attempts, i).effects)[Close(k)] <= 1
    decreases |attempts| - i
  {
    if i < |attempts| && Retried(cfg, attempts[i]) {
      ClosedOnce(cfg, attempts, i + 1, k);
      ClosesFrom(cfg, attempts, i + 1);
      var head := [Sleep(cfg.reconnectIntervalSeconds)] + CloseOf(attempts[i], i);
      var rest := Passes(cfg, attempts, i + 1).effects;
      assert Passes(cfg, attempts, i).effects == head + rest;
      assert multiset(head + rest) == multiset(head) + multiset(rest);
      if k == i {
        assert Close(k) !in rest;
      }
    }
  }

  /** Every sleep lasts exactly the configured interval, and nothing
      sleeps when the interval is 0 or below (that each retried pass sleeps
      once is Reconnect.RetriedPass). */
  lemma {:induction false} SleepsAreTheInterval(cfg: InputConfig, attempts: seq<Attempt>, i: nat)
    requires i <= |attempts|
    ensures forall e :: e in Passes(cfg, attempts, i).effects && e.Sleep? ==> e.seconds == cfg.reconnectIntervalSeconds
    ensures cfg.reconnectIntervalSeconds <= 0.0 ==> forall e :: e in Passes(cfg, attempts, i).effects ==> e.Close?
    decreases |attempts| - i
  {
    if i < |attempts| && Retried(cfg, attempts[i]) {
      SleepsAreTheInterval(cfg, attempts, i + 1);
    }
  }

  /** With the interval at zero or below, the first connection error is
      raised: nothing sleeps and the loop ends after the first attempt. */
  lemma NoRetryWhenDisabled(cfg: InputConfig, attempts: seq<Attempt>)
    requires cfg.mode == "evdev" && cfg.reconnectIntervalSeconds <= 0.0 && attempts != []
    ensures var r := EventLoop(cfg, attempts);
      r.end == (if AttemptFailure(cfg, attempts[0]).None? then Returned else Raised(AttemptFailure(cfg, attempts[0]).value))
      && r.effects == (if attempts[0].Opens? then [Close(0)] else [])
  {
  }

  /** The loop raises only an error it does not retry, and it retries only
      the three connection errors. */
  lemma {:induction false} RaisedNotRetried(cfg: InputConfig, attempts: seq<Attempt>, i: nat)
    requires i <= |attempts|
    ensures var r := Passes(cfg, attempts, i);
      r.end.Raised? ==> !(IsConnectionError(r.end.failure) && cfg.reconnectIntervalSeconds > 0.0)
    decreases |attempts| - i
  {
    if i < |attempts| && Retried(cfg, attempts[i]) {
      RaisedNotRetried(cfg, attempts, i + 1);
    }
  }

  /** A mode other than evdev is a ValueError before any device is
      touched. */
  lemma OnlyEvdev(cfg: InputConfig, attempts: seq<Attempt>)
    requires cfg.mode != "evdev"
    ensures EventLoop(cfg, attempts) == Ran(Raised(ValueError(UnsupportedModeMessage)), [])
  {
  }

  function TestInput(interval: real): InputConfig {
    InputConfig("evdev", Some("/dev/input/event0"), None, None, None, [], false, interval)
  }

  /** tests/test_runner.py:1199-1252: a SerialConnectionError from the
      first event loop sleeps 1.5 s and retries; the RuntimeError of the
      second propagates; the device is closed after each pass. */
  lemma RetryOnSerialErrorExample()
    ensures EventLoop(TestInput(1.5), [Opens(false, Some(SerialConnection("serial down"))), Opens(false, Some(Other("stop")))])
         == Ran(Raised(Other("stop")), [Sleep(1.5), Close(0), Close(1)])
  {
    var attempts := [Opens(false, Some(SerialConnection("serial down"))), Opens(false, Some(Other("stop")))];
    assert Passes(TestInput(1.5), attempts, 1) == Ran(Raised(Other("stop")), [Close(1)]);
  }

  /** tests/test_runner.py:1255-1287: with the interval at 0 a
      DeviceNotFoundError from opening the device propagates. */
  lemma ReconnectDisabledExample()
    ensures EventLoop(TestInput(0.0), [OpenFails(DeviceNotFound("not found")), Opens(false, None)])
         == Ran(Raised(DeviceNotFound("not found")), [])
  {
  }
}
