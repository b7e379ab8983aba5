/** The gRPC dial orchestrator (tls/verify/grpc/grpc.go).

    `Dial` folds its options, optionally probes the address with a bare TCP connect, builds
    a peer verifier and the TLS credential that carries it, starts the gRPC dial, and then
    waits in a `for`/`select` loop for the first of: a timer, an event of the verifier, or
    the dial's result. Network I/O, goroutines and timers are not modelled; what the loop
    receives is an explicit sequence of arrivals, and the probe's result is an input. */
module GrpcDial {
  import opened Errs
  import Options
  import Verify

  /** `time.Second`, in nanoseconds (a `time.Duration`). */
  const Second: int := 1_000_000_000

  /** A `grpc.DialOption`: one of the caller's own, or the TLS transport credential whose
      peer-certificate callback is the given verifier. */
  datatype StdOption =
    | Std(name: string)
    | TransportCredentials(insecureSkipVerify: bool, verifier: Verify.PeerVerifier)

  /** The setters `PlainText()`, `TryConnect(timeout)`, `Fingerprint(hex)`, `SkipTLSVerify()`
      and `AddStdGRPCOptions(std...)`. */
  datatype DialOption =
    | PlainText
    | TryConnect(timeout: int)
    | Fingerprint(hex: string)
    | SkipTLSVerify
    | AddStdGRPCOptions(std: seq<StdOption>)

  /** The fields of `GRPCDialOptions`. */
  datatype DialField = TimeoutField | PlainTextField | SkipField | FingerprintField | StdField

  /** The value of `GRPCDialOptions`. */
  datatype DialSettings = DialSettings(
    tryConnectTimeout: int,
    plainText: bool,
    skipTLSVerify: bool,
    fingerprint: string,
    grpcOptions: seq<StdOption>)

  const ZeroDial: DialSettings := DialSettings(0, false, false, "", [])

  function Target(opt: DialOption): DialField {
    match opt
    case PlainText => PlainTextField
    case TryConnect(_) => TimeoutField
    case Fingerprint(_) => FingerprintField
    case SkipTLSVerify => SkipField
    case AddStdGRPCOptions(_) => StdField
  }

  predicate Agree(a: DialSettings, b: DialSettings, f: DialField) {
    match f
    case TimeoutField => a.tryConnectTimeout == b.tryConnectTimeout
    case PlainTextField => a.plainText == b.plainText
    case SkipField => a.skipTLSVerify == b.skipTLSVerify
    case FingerprintField => a.fingerprint == b.fingerprint
    case StdField => a.grpcOptions == b.grpcOptions
  }

  /** The field `opt` targets holds the value `opt` writes; for `AddStdGRPCOptions` that is
      the given list itself, which replaces the earlier one. */
  predicate Holds(s: DialSettings, opt: DialOption) {
    match opt
    case PlainText => s.plainText
    case TryConnect(t) => s.tryConnectTimeout == t
    case Fingerprint(h) => s.fingerprint == h
    case SkipTLSVerify => s.skipTLSVerify
    case AddStdGRPCOptions(std) => s.grpcOptions == std
  }

  /** Running one setter: it writes its own field and leaves the other four alone. */
  function Applied(s: DialSettings, opt: DialOption): (r: DialSettings)
    ensures Holds(r, opt)
    ensures forall f :: f != Target(opt) ==> Agree(r, s, f)
  {
    match opt
    case PlainText => s.(plainText := true)
    case TryConnect(t) => s.(tryConnectTimeout := t)
    case Fingerprint(h) => s.(fingerprint := h)
    case SkipTLSVerify => s.(skipTLSVerify := true)
    case AddStdGRPCOptions(std) => s.(grpcOptions := std)
  }

  /** Running a list of setters left to right. */
  function Fold(s: DialSettings, sets: seq<DialOption>): DialSettings
    decreases |sets|
  {
    if sets == [] then s
    else Applied(Fold(s, sets[..|sets| - 1]), sets[|sets| - 1])
  }

  /** A setter that no later setter overrides decides its field: in particular the last
      `AddStdGRPCOptions` decides the whole list of gRPC options. */
  lemma {:induction false} FoldLastWins(s: DialSettings, sets: seq<DialOption>, k: nat)
    requires k < |sets|
    requires forall j :: k < j < |sets| ==> Target(sets[j]) != Target(sets[k])
    ensures Holds(Fold(s, sets), sets[k])
  {
    var n := |sets| - 1;
    if k < n {
      FoldLastWins(s, sets[..n], k);
      var before := Fold(s, sets[..n]);
      assert Agree(Applied(before, sets[n]), before, Target(sets[k]));
    }
  }

  /** A field no setter targets keeps its starting value. */
  lemma {:induction false} FoldUntargeted(s: DialSettings, sets: seq<DialOption>, f: DialField)
    requires forall j :: 0 <= j < |sets| ==> Target(sets[j]) != f
    ensures Agree(Fold(s, sets), s, f)
  {
    if sets != [] {
      var n := |sets| - 1;
      FoldUntargeted(s, sets[..n], f);
      var before := Fold(s, sets[..n]);
      assert Agree(Applied(before, sets[n]), before, f);
    }
  }

  /** `GRPCDialOptions` as a mutable record. */
  class DialOptions {
    var tryConnectTimeout: int
    var plainText: bool
    var skipTLSVerify: bool
    var fingerprint: string
    var grpcOptions: seq<StdOption>

    function Value(): DialSettings
      reads this
    {
      DialSettings(tryConnectTimeout, plainText, skipTLSVerify, fingerprint, grpcOptions)
    }

    /** `GRPCDialOptions{}`. */
    constructor ()
      ensures Value() == ZeroDial
    {
      tryConnectTimeout := 0;
      plainText := false;
      skipTLSVerify := false;
      fingerprint := "";
      grpcOptions := [];
    }

    /** Calling a setter closure on this record. */
    method Apply(opt: DialOption)
      modifies this
      ensures Value() == Applied(old(Value()), opt)
    {
      match opt
      case PlainText => plainText := true;
      case TryConnect(t) => tryConnectTimeout := t;
      case Fingerprint(h) => fingerprint := h;
      case SkipTLSVerify => skipTLSVerify := true;
      case AddStdGRPCOptions(std) => grpcOptions := std;
    }
  }

  /** The opening loop of `Dial`: the setters applied in order to the zero record. */
  method CollectOptions(sets: seq<DialOption>) returns (opts: DialOptions)
    ensures fresh(opts)
    ensures opts.Value() == Fold(ZeroDial, sets)
  {
    opts := new DialOptions();
    for i := 0 to |sets|
      invariant opts.Value() == Fold(ZeroDial, sets[..i])
    {
      assert sets[..i + 1][..i] == sets[..i];
      opts.Apply(sets[i]);
    }
    assert sets[..|sets|] == sets;
  }

  /** The verifier options `Dial` builds: `FingerprintSHA1` if a fingerprint is given, then
      `SkipTLSVerify` if asked for, then `Events`. The verifier they build therefore pins
      exactly the dial's fingerprint, skips the chain exactly when the dial does, checks no
      DNS name and reports to `events`. */
  method VerifierOptionsFor(o: DialSettings, events: Options.Chan) returns (vopts: seq<Options.VerifyOption>)
    ensures vopts == (if |o.fingerprint| > 0 then [Options.FingerprintSHA1(o.fingerprint)] else [])
                   + (if o.skipTLSVerify then [Options.SkipTLSVerify] else [])
                   + [Options.Events(events)]
    ensures Options.Fold(Options.Zero, vopts) == Options.Settings(o.skipTLSVerify, "", o.fingerprint, events)
  {
    vopts := [];
    if |o.fingerprint| > 0 {
      vopts := vopts + [Options.FingerprintSHA1(o.fingerprint)];
    }
    Options.FoldConcat(Options.Zero, [], vopts);
    assert Options.Fold(Options.Zero, vopts) == Options.Zero.(sha1Fingerprint := o.fingerprint) by {
      if |o.fingerprint| > 0 {
        assert vopts[..0] == [];
      }
    }
    ghost var before := vopts;
    if o.skipTLSVerify {
      vopts := vopts + [Options.SkipTLSVerify];
      assert vopts[..|vopts| - 1] == before;
    }
    assert Options.Fold(Options.Zero, vopts)
        == Options.Zero.(sha1Fingerprint := o.fingerprint, skipTLSVerify := o.skipTLSVerify);
    ghost var middle := vopts;
    vopts := vopts + [Options.Events(events)];
    assert vopts[..|vopts| - 1] == middle;
  }

  /** The timeout of each loop iteration: `TryConnectTimeout` when positive, else one second. */
  function LoopTimeout(o: DialSettings): (t: int)
    ensures t > 0
    ensures t == o.tryConnectTimeout || (o.tryConnectTimeout <= 0 && t == Second)
  {
    if o.tryConnectTimeout > 0 then o.tryConnectTimeout else Second
  }

  // ----- the select loop -----

  /** A `*grpc.ClientConn`. */
  datatype Conn = Conn(id: nat)

  /** What a select case receives: an event of the verifier, the dial's result, or the
      close of the result channel. */
  datatype Signal =
    | VerifierEvent(event: Options.Event)
    | DialResult(conn: Option<Conn>, err: Option<Error>)
    | ResultClosed

  /** A signal and how long after the start of its loop iteration it arrives. */
  datatype Arrival = Arrival(delay: nat, signal: Signal)

  datatype DialOutcome = Connected(conn: Conn) | Failed(err: Error) | Panicked

  /** gRPC's dial always yields a connection or an error (`panic("something wrong")` is
      unreachable). */
  predicate WellFormed(a: Arrival) {
    a.signal.DialResult? ==> a.signal.conn.Some? || a.signal.err.Some?
  }

  predicate AllWellFormed(arrivals: seq<Arrival>) {
    forall i :: 0 <= i < |arrivals| ==> WellFormed(arrivals[i])
  }

  /** Whether an arrival ends the loop: the timer (`time.After`, made anew each iteration)
      fires first, or the signal is anything but `Event_Begin` or `Event_Done`. */
  predicate Ends(timeout: int, a: Arrival) {
    a.delay >= timeout || !(a.signal.VerifierEvent? && !a.signal.event.Err?)
  }

  /** The loop as a left fold over the arrivals; once nothing more arrives, the timer fires. */
  function Race(timeout: int, arrivals: seq<Arrival>): DialOutcome
    requires AllWellFormed(arrivals)
  {
    if arrivals == [] then Failed(NotResponse)
    else
      var a := arrivals[0];
      if a.delay >= timeout then Failed(NotResponse)
      else match a.signal
        case VerifierEvent(Err(e)) => Failed(e)
        case VerifierEvent(_) => Race(timeout, arrivals[1..])
        case ResultClosed => Failed(NoResult)
        case DialResult(conn, err) => if err.Some? then Failed(err.value) else Connected(conn.value)
  }

  /** The first arrival that ends the loop decides its outcome, case by case; earlier
      arrivals (Begin and Done events within the timeout) have no effect. Without such an
      arrival the outcome is `ErrNotResponse`. The loop never panics. */
  lemma {:induction false} RaceDecidedByFirstEnd(timeout: int, arrivals: seq<Arrival>, k: nat)
    requires AllWellFormed(arrivals)
    requires k <= |arrivals|
    requires forall j :: 0 <= j < k ==> !Ends(timeout, arrivals[j])
    requires k < |arrivals| ==> Ends(timeout, arrivals[k])
    ensures k == |arrivals| ==> Race(timeout, arrivals) == Failed(NotResponse)
    ensures k < |arrivals| ==>
      var a := arrivals[k];
      && (a.delay >= timeout ==> Race(timeout, arrivals) == Failed(NotResponse))
      && (a.delay < timeout ==>
            match a.signal
            case VerifierEvent(e) => e.Err? && Race(timeout, arrivals) == Failed(e.err)
            case ResultClosed => Race(timeout, arrivals) == Failed(NoResult)
            case DialResult(conn, err) =>
              Race(timeout, arrivals) == if err.Some? then Failed(err.value) else Connected(conn.value))
    ensures !Race(timeout, arrivals).Panicked?
  {
    if k > 0 {
      assert !Ends(timeout, arrivals[0]);
      forall j | 0 <= j < k - 1 ensures !Ends(timeout, arrivals[1..][j]) {
        assert arrivals[1..][j] == arrivals[j + 1];
      }
      RaceDecidedByFirstEnd(timeout, arrivals[1..], k - 1);
    }
  }

  /** Begin and Done events that arrive in time do not end the loop. */
  lemma BeginDoneContinue(timeout: int, a: Arrival, rest: seq<Arrival>)
    requires AllWellFormed([a] + rest)
    requires a.delay < timeout && a.signal.VerifierEvent? && !a.signal.event.Err?
    ensures AllWellFormed(rest)
    ensures Race(timeout, [a] + rest) == Race(timeout, rest)
  {
    assert forall i :: 0 <= i < |rest| ==> rest[i] == ([a] + rest)[i + 1];
    assert ([a] + rest)[1..] == rest;
  }

  /** The bound is per iteration, not overall: a Begin and a Done each arriving just in time
      let a connection arrive well after one timeout has passed since the dial started. */
  lemma TimeoutRestartsOnEvents(timeout: int, c: Conn)
    requires timeout > 1
    ensures var arrivals := [Arrival(timeout - 1, VerifierEvent(Options.Begin)),
                             Arrival(timeout - 1, VerifierEvent(Options.Done)),
                             Arrival(timeout - 1, DialResult(Some(c), None))];
      && AllWellFormed(arrivals)
      && arrivals[0].delay + arrivals[1].delay + arrivals[2].delay > timeout
      && Race(timeout, arrivals) == Connected(c)
  {
    var arrivals := [Arrival(timeout - 1, VerifierEvent(Options.Begin)),
                     Arrival(timeout - 1, VerifierEvent(Options.Done)),
                     Arrival(timeout - 1, DialResult(Some(c), None))];
    assert arrivals[1..] == [arrivals[1], arrivals[2]];
    assert arrivals[1..][1..] == [arrivals[2]];
    assert Race(timeout, [arrivals[2]]) == Connected(c);
    assert Race(timeout, arrivals[1..]) == Race(timeout, [arrivals[2]]);
  }

  /** The `for`/`select` loop of `Dial`. */
  method SelectLoop(timeout: int, arrivals: seq<Arrival>) returns (outcome: DialOutcome)
    requires AllWellFormed(arrivals)
    ensures outcome == Race(timeout, arrivals)
  {
    var i := 0;
    while true
      invariant 0 <= i <= |arrivals|
      invariant AllWellFormed(arrivals[i..])
      invariant Race(timeout, arrivals) == Race(timeout, arrivals[i..])
      decreases |arrivals| - i
    {
      if i == |arrivals| {
        // nothing else arrives: the timer fires
        return Failed(NotResponse);
      }
      var a := arrivals[i];
      assert arrivals[i..][0] == a && arrivals[i..][1..] == arrivals[i + 1..];
      if a.delay >= timeout {
        return Failed(NotResponse);
      }
      match a.signal {
        case VerifierEvent(e) =>
          match e {
            case Begin =>
            case Done =>
            case Err(x) => return Failed(x);
          }
        case ResultClosed =>
          return Failed(NoResult);
        case DialResult(conn, err) =>
          if err.Some? {
            return Failed(err.value);
          }
          assert conn.Some?;
          return Connected(conn.value);
      }
      i := i + 1;
    }
  }

  // ----- Dial -----

  /** `Dial` as the source has it. With `TryConnectTimeout > 0` and a failed probe the probe's
      error is returned; with a successful probe the cancel function stays nil and the
      deferred `cancel()` panics when `Dial` returns. Otherwise the select loop decides, with
      a one-second bound per iteration. */
  function DialAsWritten(o: DialSettings, probe: Option<Error>, arrivals: seq<Arrival>): DialOutcome
    requires AllWellFormed(arrivals)
  {
    if o.tryConnectTimeout > 0 && probe.Some? then Failed(probe.value)
    else if o.tryConnectTimeout > 0 then Panicked
    else Race(LoopTimeout(o), arrivals)
  }

  /** `Dial` with its cancellable context created on both paths, as intended. */
  function DialIntended(o: DialSettings, probe: Option<Error>, arrivals: seq<Arrival>): DialOutcome
    requires AllWellFormed(arrivals)
  {
    if o.tryConnectTimeout > 0 && probe.Some? then Failed(probe.value)
    else Race(LoopTimeout(o), arrivals)
  }

  /** The discrepancy: `TryConnect(time.Second)`, a successful probe and a connection arriving
      at once still end in a panic. */
  lemma TryConnectPanics()
    ensures var o := Fold(ZeroDial, [TryConnect(Second)]);
      var arrivals := [Arrival(0, DialResult(Some(Conn(1)), None))];
      && AllWellFormed(arrivals)
      && DialAsWritten(o, None, arrivals) == Panicked
      && DialIntended(o, None, arrivals) == Connected(Conn(1))
  {
    var o := Fold(ZeroDial, [TryConnect(Second)]);
    assert [TryConnect(Second)][..0] == [];
    assert o.tryConnectTimeout == Second;
  }

  /** The intended dial: a failed probe is returned at once; otherwise the outcome is that of
      the loop under `LoopTimeout`. It never panics. */
  lemma DialIntendedOutcome(o: DialSettings, probe: Option<Error>, arrivals: seq<Arrival>)
    requires AllWellFormed(arrivals)
    ensures o.tryConnectTimeout > 0 && probe.Some? ==> DialIntended(o, probe, arrivals) == Failed(probe.value)
    ensures !(o.tryConnectTimeout > 0 && probe.Some?) ==>
      DialIntended(o, probe, arrivals) == Race(LoopTimeout(o), arrivals)
    ensures !DialIntended(o, probe, arrivals).Panicked?
  {
    RaceDecidedByFirstEnd(LoopTimeout(o), arrivals, FirstEnd(LoopTimeout(o), arrivals));
  }

  /** The index of the first arrival that ends the loop, or the length if there is none. */
  function FirstEnd(timeout: int, arrivals: seq<Arrival>): (k: nat)
    ensures k <= |arrivals|
    ensures forall j :: 0 <= j < k ==> !Ends(timeout, arrivals[j])
    ensures k < |arrivals| ==> Ends(timeout, arrivals[k])
  {
    if arrivals == [] then 0
    else if Ends(timeout, arrivals[0]) then 0
    else
      var k := 1 + FirstEnd(timeout, arrivals[1..]);
      assert forall j :: 1 <= j < k ==> arrivals[j] == arrivals[1..][j - 1];
      k
  }

  /** What `Dial` hands to `grpc.DialContext`, if it gets that far: the caller's gRPC options,
      followed, unless `PlainText` is set, by a TLS credential with `InsecureSkipVerify` whose
      callback is a fresh verifier built from the dial's fingerprint and skip flag, reporting
      to the dial's `events` channel. */
  ghost predicate StartedWith(o: DialSettings, events: Options.Chan, started: seq<StdOption>)
    reads set i | 0 <= i < |started| && started[i].TransportCredentials? :: started[i].verifier.opts
  {
    if o.plainText then started == o.grpcOptions
    else
      && |started| == |o.grpcOptions| + 1
      && started[..|o.grpcOptions|] == o.grpcOptions
      && var c := started[|o.grpcOptions|];
         && c.TransportCredentials? && c.insecureSkipVerify
         && var v := c.verifier.opts.Value();
            && v.skipTLSVerify == o.skipTLSVerify && v.sha1Fingerprint == o.fingerprint && v.dnsName == ""
            && v.eventChan == events
  }

  /** The steps `Dial` shares in both versions after the probe: the verifier, the credential,
      and the list of options for the gRPC dial. */
  method StartDial(o: DialSettings) returns (started: seq<StdOption>, events: Options.Chan)
    ensures fresh(events) && events.capacity == 0
    ensures StartedWith(o, events, started)
  {
    events := new Options.Chan(0);
    var vopts := VerifierOptionsFor(o, events);
    started := o.grpcOptions;
    if !o.plainText {
      var verifier := new Verify.PeerVerifier(vopts);
      started := started + [TransportCredentials(true, verifier)];
      assert started[..|o.grpcOptions|] == o.grpcOptions;
    }
  }

  /** `Dial` as written. `started` is `None` when nothing is dialed (the probe failed) and
      otherwise the options handed to `grpc.DialContext`; `events` is then the unbuffered
      channel `Dial` made for the verifier. */
  method Dial(sets: seq<DialOption>, probe: Option<Error>, arrivals: seq<Arrival>)
    returns (outcome: DialOutcome, started: Option<seq<StdOption>>, events: Options.Chan?)
    requires AllWellFormed(arrivals)
    ensures outcome == DialAsWritten(Fold(ZeroDial, sets), probe, arrivals)
    ensures started.None? <==> Fold(ZeroDial, sets).tryConnectTimeout > 0 && probe.Some?
    ensures started.None? <==> events == null
    ensures started.Some? ==>
      events != null && events.capacity == 0 && StartedWith(Fold(ZeroDial, sets), events, started.value)
  {
    var opts := CollectOptions(sets);
    var o := opts.Value();
    var hasCancel := false;
    if o.tryConnectTimeout > 0 {
      if probe.Some? {
        return Failed(probe.value), None, null;
      }
      // the probe connection is closed on return; ctx and cancel stay nil
    } else {
      hasCancel := true;
    }
    var dialOptions, ch := StartDial(o);
    started, events := Some(dialOptions), ch;
    var timeout := LoopTimeout(o);
    outcome := SelectLoop(timeout, arrivals);
    if !hasCancel {
      // the deferred call of the nil cancel function
      outcome := Panicked;
    }
  }

  /** `Dial` with the cancellable context created on both paths. */
  method DialCorrected(sets: seq<DialOption>, probe: Option<Error>, arrivals: seq<Arrival>)
    returns (outcome: DialOutcome, started: Option<seq<StdOption>>, events: Options.Chan?)
    requires AllWellFormed(arrivals)
    ensures outcome == DialIntended(Fold(ZeroDial, sets), probe, arrivals)
    ensures !outcome.Panicked?
    ensures started.None? <==> Fold(ZeroDial, sets).tryConnectTimeout > 0 && probe.Some?
    ensures started.None? <==> events == null
    ensures started.Some? ==>
      events != null && events.capacity == 0 && StartedWith(Fold(ZeroDial, sets), events, started.value)
  {
    var opts := CollectOptions(sets);
    var o := opts.Value();
    DialIntendedOutcome(o, probe, arrivals);
    if o.tryConnectTimeout > 0 && probe.Some? {
      return Failed(probe.value), None, null;
    }
    var dialOptions, ch := StartDial(o);
    started, events := Some(dialOptions), ch;
    outcome := SelectLoop(LoopTimeout(o), arrivals);
  }
}
