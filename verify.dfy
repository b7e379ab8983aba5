/** The peer-certificate verifier (tls/verify/verity.go).

    The callback returned by `Option()` is the interesting part: it parses the raw
    certificates, verifies the chain unless told to skip it, pins the leaf's SHA-1
    fingerprint if one is configured, and resolves the verifier's waiter with the same
    error it returns to the TLS stack. The x509 parser, chain verification, the fingerprint
    library and the clock are foreign; they are the uninterpreted fields of `Host`.
    `Decision` is the pure specification of the callback's result; the callback itself is
    `PeerVerifier.VerifyPeerCertificate`. */
module Verify {
  import opened Errs
  import opened Hex
  import opened Options
  import opened Waiter

  /** A DER encoding of a certificate. */
  type Der = seq<bv8>

  /** A parsed certificate (`*x509.Certificate`); the model observes only its encoding. */
  datatype Cert = Cert(raw: Der)

  /** The reason of an `x509.CertificateInvalidError`: `x509.Expired` (which covers "not yet
      valid" too) or any other reason code. */
  datatype InvalidReason = Expired | OtherReason(code: nat)

  /** What `Certificate.Verify` returns: success, an error that `errors.As` finds to be a
      `CertificateInvalidError` (with its reason), or any other error (an unknown authority,
      say). The error value is the one `Verify` returned. */
  datatype ChainResult = ChainOk | ChainInvalid(reason: InvalidReason, err: Error) | ChainFailed(err: Error)

  /** `x509.VerifyOptions` as the callback fills it in: the current time, the expected DNS
      name and the pool of intermediates. */
  datatype X509Options = X509Options(currentTime: int, dnsName: string, intermediates: seq<Cert>)

  /** The foreign calls: `x509.ParseCertificate`, `Certificate.Verify`,
      `fingerprint.Fingerprint(cert, crypto.SHA1)`, and the value of `time.Now()`. */
  datatype Host = Host(
    parse: Der -> Result<Cert>,
    verify: (Cert, X509Options) -> ChainResult,
    fingerprint: Cert -> Result<string>,
    now: int)

  /** Parsing every raw certificate in order; the first failure is the result. */
  function ParseAll(raws: seq<Der>, parse: Der -> Result<Cert>): (r: Result<seq<Cert>>)
    ensures r.Ok? ==> |r.value| == |raws| && forall i :: 0 <= i < |raws| ==> parse(raws[i]) == Ok(r.value[i])
    ensures r.Fail? ==> exists i :: 0 <= i < |raws| && parse(raws[i]) == Fail(r.err)
  {
    if raws == [] then Ok([])
    else match parse(raws[0])
      case Fail(e) => Fail(e)
      case Ok(c) =>
        match ParseAll(raws[1..], parse)
        case Fail(e) => Fail(e)
        case Ok(cs) => Ok([c] + cs)
  }

  /** The callback indexes the leaf (`certs[0]`, `certs[1:]`) unless both the chain check and
      the fingerprint check are off; the TLS stack always hands it the peer's certificates. */
  predicate LeafAvailable(s: Settings, raws: seq<Der>) {
    |raws| > 0 || (s.skipTLSVerify && |s.sha1Fingerprint| == 0)
  }

  /** The chain step: verify the leaf against the others as intermediates. An expired
      certificate becomes `ErrCertExpired`; every other failure is returned as it is. */
  function ChainCheck(s: Settings, certs: seq<Cert>, host: Host): Option<Error>
    requires |certs| > 0
  {
    match host.verify(certs[0], X509Options(host.now, s.dnsName, certs[1..]))
    case ChainOk => None
    case ChainInvalid(Expired, _) => Some(CertExpired)
    case ChainInvalid(OtherReason(_), e) => Some(e)
    case ChainFailed(e) => Some(e)
  }

  /** The pinning step: compare the configured and the computed fingerprint, both normalised. */
  function FingerprintCheck(s: Settings, leaf: Cert, host: Host): Option<Error> {
    match host.fingerprint(leaf)
    case Fail(e) => Some(Wrapped(FingerprintContext, e))
    case Ok(got) => if NormalHex(s.sha1Fingerprint) != NormalHex(got) then Some(NotMatchedFingerprint) else None
  }

  /** The error the callback returns (`None` for nil): parse, then chain unless skipped,
      then fingerprint if one is configured; the first failing step decides. */
  function Decision(s: Settings, raws: seq<Der>, host: Host): Option<Error>
    requires LeafAvailable(s, raws)
  {
    match ParseAll(raws, host.parse)
    case Fail(e) => Some(Wrapped(ParseContext, e))
    case Ok(certs) => Checks(s, certs, host)
  }

  /** The steps after parsing: the chain unless skipped, then the fingerprint if one is
      configured. */
  function Checks(s: Settings, certs: seq<Cert>, host: Host): Option<Error>
    requires |certs| > 0 || (s.skipTLSVerify && |s.sha1Fingerprint| == 0)
  {
    var chain := if s.skipTLSVerify then None else ChainCheck(s, certs, host);
    if chain.Some? then chain
    else if |s.sha1Fingerprint| > 0 then FingerprintCheck(s, certs[0], host)
    else None
  }

  /** Acceptance, stated step by step: every certificate parses, the chain verifies unless
      skipped, and the fingerprints agree after normalisation unless none is configured. */
  ghost predicate Accepted(s: Settings, raws: seq<Der>, host: Host) {
    && (forall i :: 0 <= i < |raws| ==> host.parse(raws[i]).Ok?)
    && (!s.skipTLSVerify ==>
          |raws| > 0 &&
          host.verify(host.parse(raws[0]).value,
                      X509Options(host.now, s.dnsName, ParsedTail(raws, host.parse))).ChainOk?)
    && (|s.sha1Fingerprint| > 0 ==>
          |raws| > 0 &&
          host.fingerprint(host.parse(raws[0]).value).Ok? &&
          NormalHex(s.sha1Fingerprint) == NormalHex(host.fingerprint(host.parse(raws[0]).value).value))
  }

  /** The parsed intermediates, for certificates that all parse. */
  ghost function ParsedTail(raws: seq<Der>, parse: Der -> Result<Cert>): seq<Cert>
    requires |raws| > 0 && forall i :: 0 <= i < |raws| ==> parse(raws[i]).Ok?
  {
    seq(|raws| - 1, i requires 0 <= i < |raws| - 1 => parse(raws[i + 1]).value)
  }

  // ----- parsing -----

  lemma {:induction false} ParseAllOk(raws: seq<Der>, parse: Der -> Result<Cert>, certs: seq<Cert>)
    requires |certs| == |raws|
    requires forall i :: 0 <= i < |raws| ==> parse(raws[i]) == Ok(certs[i])
    ensures ParseAll(raws, parse) == Ok(certs)
  {
    if raws != [] {
      ParseAllOk(raws[1..], parse, certs[1..]);
      assert certs == [certs[0]] + certs[1..];
    }
  }

  lemma {:induction false} ParseAllFirstFailure(raws: seq<Der>, parse: Der -> Result<Cert>, i: nat)
    requires i < |raws| && parse(raws[i]).Fail?
    requires forall j :: 0 <= j < i ==> parse(raws[j]).Ok?
    ensures ParseAll(raws, parse) == Fail(parse(raws[i]).err)
  {
    if i > 0 {
      ParseAllFirstFailure(raws[1..], parse, i - 1);
    }
  }

  /** A certificate that fails to parse decides the result: the wrapped error of the first
      failing index, whatever chain verification and fingerprinting would have said. */
  lemma ParseFailureDecides(s: Settings, raws: seq<Der>, host: Host, i: nat,
                            verify: (Cert, X509Options) -> ChainResult, fingerprint: Cert -> Result<string>)
    requires LeafAvailable(s, raws)
    requires i < |raws| && host.parse(raws[i]).Fail?
    requires forall j :: 0 <= j < i ==> host.parse(raws[j]).Ok?
    ensures Decision(s, raws, host) == Some(Wrapped(ParseContext, host.parse(raws[i]).err))
    ensures Decision(s, raws, host.(verify := verify, fingerprint := fingerprint)) == Decision(s, raws, host)
  {
    ParseAllFirstFailure(raws, host.parse, i);
  }

  // ----- the chain step -----

  /** What the chain step makes of each result of `Certificate.Verify`. */
  lemma ChainCheckOutcome(s: Settings, certs: seq<Cert>, host: Host)
    requires |certs| > 0
    ensures var r := host.verify(certs[0], X509Options(host.now, s.dnsName, certs[1..]));
      && (r.ChainOk? <==> ChainCheck(s, certs, host) == None)
      && (r.ChainInvalid? && r.reason == Expired ==> ChainCheck(s, certs, host) == Some(CertExpired))
      && (r.ChainInvalid? && r.reason.OtherReason? ==> ChainCheck(s, certs, host) == Some(r.err))
      && (r.ChainFailed? ==> ChainCheck(s, certs, host) == Some(r.err))
  {
  }

  /** Without `SkipTLSVerify`, a failing chain step decides the result. */
  lemma ChainFailureDecides(s: Settings, raws: seq<Der>, host: Host, certs: seq<Cert>)
    requires |raws| > 0 && !s.skipTLSVerify
    requires ParseAll(raws, host.parse) == Ok(certs)
    requires ChainCheck(s, certs, host).Some?
    ensures Decision(s, raws, host) == ChainCheck(s, certs, host)
  {
  }

  /** Without `SkipTLSVerify`, an expired certificate is reported as `ErrCertExpired` before
      any fingerprint is looked at, so a wrong fingerprint cannot change that. */
  lemma ExpiredBeforeFingerprint(s: Settings, raws: seq<Der>, host: Host, certs: seq<Cert>,
                                 fingerprint: Cert -> Result<string>)
    requires |raws| > 0 && !s.skipTLSVerify
    requires ParseAll(raws, host.parse) == Ok(certs)
    requires host.verify(certs[0], X509Options(host.now, s.dnsName, certs[1..])).ChainInvalid?
    requires host.verify(certs[0], X509Options(host.now, s.dnsName, certs[1..])).reason == Expired
    ensures Decision(s, raws, host) == Some(CertExpired)
    ensures Decision(s, raws, host.(fingerprint := fingerprint)) == Some(CertExpired)
  {
    var other := host.(fingerprint := fingerprint);
    ChainCheckOutcome(s, certs, host);
    ChainCheckOutcome(s, certs, other);
    ChainFailureDecides(s, raws, host, certs);
    ChainFailureDecides(s, raws, other, certs);
  }

  /** Without `SkipTLSVerify`, every other chain failure (another invalid reason, an unknown
      authority) is returned unchanged. */
  lemma OtherChainErrorUnchanged(s: Settings, raws: seq<Der>, host: Host, certs: seq<Cert>)
    requires |raws| > 0 && !s.skipTLSVerify
    requires ParseAll(raws, host.parse) == Ok(certs)
    requires var r := host.verify(certs[0], X509Options(host.now, s.dnsName, certs[1..]));
      r.ChainFailed? || (r.ChainInvalid? && r.reason.OtherReason?)
    ensures Decision(s, raws, host) == Some(host.verify(certs[0], X509Options(host.now, s.dnsName, certs[1..])).err)
  {
    ChainCheckOutcome(s, certs, host);
    ChainFailureDecides(s, raws, host, certs);
  }

  /** With `SkipTLSVerify`, chain verification is never consulted; with no fingerprint
      either, any chain that parses (an expired self-signed one, say) is accepted. */
  lemma SkipBypassesChain(s: Settings, raws: seq<Der>, host: Host, verify: (Cert, X509Options) -> ChainResult)
    requires s.skipTLSVerify && LeafAvailable(s, raws)
    ensures Decision(s, raws, host.(verify := verify)) == Decision(s, raws, host)
    ensures |s.sha1Fingerprint| == 0 && ParseAll(raws, host.parse).Ok? ==> Decision(s, raws, host) == None
  {
  }

  // ----- the pinning step -----

  /** Once the chain step has passed (or was skipped), a configured fingerprint passes iff
      the normalised forms agree, and fails with `ErrNotMatchedFingerprint` otherwise. */
  lemma FingerprintPinning(s: Settings, raws: seq<Der>, host: Host, certs: seq<Cert>, got: string)
    requires |raws| > 0 && |s.sha1Fingerprint| > 0
    requires ParseAll(raws, host.parse) == Ok(certs)
    requires !s.skipTLSVerify ==> host.verify(certs[0], X509Options(host.now, s.dnsName, certs[1..])).ChainOk?
    requires host.fingerprint(certs[0]) == Ok(got)
    ensures Decision(s, raws, host) == None <==> NormalHex(s.sha1Fingerprint) == NormalHex(got)
    ensures Decision(s, raws, host) != None ==> Decision(s, raws, host) == Some(NotMatchedFingerprint)
  {
    ParsedDecides(s, raws, host, certs);
    if !s.skipTLSVerify {
      ChainCheckOutcome(s, certs, host);
    }
    ChainPassDecides(s, certs, host);
  }

  /** Once every certificate parses, the steps after parsing decide the result. */
  lemma ParsedDecides(s: Settings, raws: seq<Der>, host: Host, certs: seq<Cert>)
    requires LeafAvailable(s, raws)
    requires ParseAll(raws, host.parse) == Ok(certs)
    ensures |certs| == |raws|
    ensures Decision(s, raws, host) == Checks(s, certs, host)
  {
  }

  /** Once the chain step has passed (or was skipped), the pinning step decides. */
  lemma ChainPassDecides(s: Settings, certs: seq<Cert>, host: Host)
    requires |certs| > 0
    requires !s.skipTLSVerify ==> ChainCheck(s, certs, host) == None
    ensures Checks(s, certs, host) == if |s.sha1Fingerprint| > 0 then FingerprintCheck(s, certs[0], host) else None
  {
  }

  /** Once the chain step has passed (or was skipped), a failure of the fingerprint library
      is returned wrapped with "failed to create a fingerprint for server cert". */
  lemma FingerprintLibraryFailure(s: Settings, raws: seq<Der>, host: Host, certs: seq<Cert>, e: Error)
    requires |raws| > 0 && |s.sha1Fingerprint| > 0
    requires ParseAll(raws, host.parse) == Ok(certs)
    requires !s.skipTLSVerify ==> host.verify(certs[0], X509Options(host.now, s.dnsName, certs[1..])).ChainOk?
    requires host.fingerprint(certs[0]) == Fail(e)
    ensures Decision(s, raws, host) == Some(Wrapped(FingerprintContext, e))
  {
    ParsedDecides(s, raws, host, certs);
    if !s.skipTLSVerify {
      ChainCheckOutcome(s, certs, host);
    }
    ChainPassDecides(s, certs, host);
  }

  /** A configured fingerprint matches a computed one written in any of the four forms of
      the same digest (colon-separated or bare, either case). */
  lemma PinnedDigestAnyForm(s: Settings, raws: seq<Der>, host: Host, certs: seq<Cert>, d: seq<Octet>,
                            expectedColons: bool, expectedUpper: bool, gotColons: bool, gotUpper: bool)
    requires |raws| > 0
    requires ParseAll(raws, host.parse) == Ok(certs)
    requires !s.skipTLSVerify ==> host.verify(certs[0], X509Options(host.now, s.dnsName, certs[1..])).ChainOk?
    requires s.sha1Fingerprint == if expectedColons then ColonHex(d, expectedUpper) else BareHex(d, expectedUpper)
    requires host.fingerprint(certs[0]) == Ok(if gotColons then ColonHex(d, gotUpper) else BareHex(d, gotUpper))
    ensures Decision(s, raws, host) == None
  {
    DigestFormsAgree(d);
  }

  /** An empty fingerprint switches pinning off: the fingerprint library is never consulted. */
  lemma NoFingerprintNoPinning(s: Settings, raws: seq<Der>, host: Host, fingerprint: Cert -> Result<string>)
    requires |s.sha1Fingerprint| == 0 && LeafAvailable(s, raws)
    ensures Decision(s, raws, host.(fingerprint := fingerprint)) == Decision(s, raws, host)
  {
  }

  /** The callback returns nil exactly when every step passes. */
  lemma DecisionAccepts(s: Settings, raws: seq<Der>, host: Host)
    requires LeafAvailable(s, raws)
    ensures Decision(s, raws, host) == None <==> Accepted(s, raws, host)
  {
    var p := ParseAll(raws, host.parse);
    if p.Ok? {
      if |raws| > 0 {
        assert p.value[1..] == ParsedTail(raws, host.parse);
      }
    } else {
      var i :| 0 <= i < |raws| && host.parse(raws[i]) == Fail(p.err);
    }
  }

  /** A verifier (`tlsVerifyPeerCertificate`): its option record and its waiter. */
  class PeerVerifier {
    const opts: VerifierOptions
    var waitErr: OneErrorWaiter?

    ghost predicate Valid()
      reads this, waitErr
    {
      waitErr != null ==> waitErr.Valid()
    }

    /** `TLSVerifyPeerCertificate`: zero options, the setters applied in order, and a fresh
        unresolved waiter without a cancel function. */
    constructor (sets: seq<VerifyOption>)
      ensures Valid() && fresh(opts) && fresh(waitErr)
      ensures opts.Value() == Fold(Zero, sets)
      ensures waitErr != null && !waitErr.hasCancel && !waitErr.resolved
    {
      var o := new VerifierOptions();
      for i := 0 to |sets|
        invariant o.Value() == Fold(Zero, sets[..i])
      {
        assert sets[..i + 1][..i] == sets[..i];
        o.Apply(sets[i]);
      }
      assert sets[..|sets|] == sets;
      opts := o;
      waitErr := new OneErrorWaiter();
    }

    /** `TLSVerifyPeerCertificateWithContext`: the same, with a waiter that cancels the
        derived context on release. */
    constructor WithContext(sets: seq<VerifyOption>)
      ensures Valid() && fresh(opts) && fresh(waitErr)
      ensures opts.Value() == Fold(Zero, sets)
      ensures waitErr != null && waitErr.hasCancel && !waitErr.resolved && waitErr.cancelCalls == 0
    {
      var o := new VerifierOptions();
      for i := 0 to |sets|
        invariant o.Value() == Fold(Zero, sets[..i])
      {
        assert sets[..i + 1][..i] == sets[..i];
        o.Apply(sets[i]);
      }
      assert sets[..|sets|] == sets;
      opts := o;
      waitErr := new OneErrorWaiter.WithContext();
    }

    /** `Wait`: without a waiter an error saying so; otherwise the waiter's result. */
    method Wait() returns (e: Option<Error>)
      requires Valid() && (waitErr != null ==> waitErr.resolved)
      modifies waitErr
      ensures Valid()
      ensures waitErr == null ==> e == Some(WaiterNil)
      ensures waitErr != null ==>
        && e == waitErr.err && waitErr.err == old(waitErr.err) && waitErr.resolved
        && waitErr.cancelCalls == old(waitErr.cancelCalls) + (if waitErr.hasCancel then 1 else 0)
    {
      if waitErr == null {
        return Some(WaiterNil);
      }
      e := waitErr.Wait();
    }

    /** `releaseError`. */
    method ReleaseError(e: Error)
      requires Valid()
      modifies waitErr
      ensures Valid()
      ensures waitErr != null ==> waitErr.resolved
      ensures waitErr != null ==> waitErr.err == if old(waitErr.resolved) then old(waitErr.err) else Some(e)
      ensures waitErr != null ==>
        waitErr.cancelCalls == old(waitErr.cancelCalls) + (if !old(waitErr.resolved) && waitErr.hasCancel then 1 else 0)
    {
      if waitErr != null {
        waitErr.Release(Some(e));
      }
    }

    /** `releaseDone`. */
    method ReleaseDone()
      requires Valid()
      modifies waitErr
      ensures Valid()
      ensures waitErr != null ==> waitErr.resolved
      ensures waitErr != null ==> waitErr.err == if old(waitErr.resolved) then old(waitErr.err) else None
      ensures waitErr != null ==>
        waitErr.cancelCalls == old(waitErr.cancelCalls) + (if !old(waitErr.resolved) && waitErr.hasCancel then 1 else 0)
    {
      if waitErr != null {
        waitErr.Release(None);
      }
    }

    /** The callback `Option()` returns, called with the peer's raw certificates (the
        already-verified chains it also receives are ignored). It returns `Decision`, and it
        leaves the waiter resolved with that same result unless it was resolved already:
        a failing step releases its error first, and the deferred `releaseDone` cannot
        overwrite it. */
    method VerifyPeerCertificate(rawCerts: seq<Der>, host: Host) returns (err: Option<Error>)
      requires Valid() && LeafAvailable(opts.Value(), rawCerts)
      modifies waitErr
      ensures Valid()
      ensures err == Decision(opts.Value(), rawCerts, host)
      ensures waitErr != null ==> waitErr.resolved
      ensures waitErr != null ==> waitErr.err == if old(waitErr.resolved) then old(waitErr.err) else err
      ensures waitErr != null ==>
        waitErr.cancelCalls == old(waitErr.cancelCalls) + (if !old(waitErr.resolved) && waitErr.hasCancel then 1 else 0)
    {
      err := Evaluate(rawCerts, host);
      ReleaseDone();
    }

    /** The body of the callback up to its `return`: each failing step releases its error. */
    method Evaluate(rawCerts: seq<Der>, host: Host) returns (err: Option<Error>)
      requires Valid() && LeafAvailable(opts.Value(), rawCerts)
      modifies waitErr
      ensures Valid()
      ensures err == Decision(opts.Value(), rawCerts, host)
      ensures waitErr != null && err.Some? ==>
        waitErr.resolved && waitErr.err == if old(waitErr.resolved) then old(waitErr.err) else err
      ensures waitErr != null && err.Some? ==>
        waitErr.cancelCalls == old(waitErr.cancelCalls) + (if !old(waitErr.resolved) && waitErr.hasCancel then 1 else 0)
      ensures waitErr != null && err.None? ==>
        && waitErr.resolved == old(waitErr.resolved) && waitErr.err == old(waitErr.err)
        && waitErr.cancelCalls == old(waitErr.cancelCalls)
    {
      var s := opts.Value();
      var certs := new Cert[|rawCerts|];
      var i := 0;
      var parseErr: Option<Error> := None;
      while i < |rawCerts|
        modifies certs
        invariant 0 <= i <= |rawCerts|
        invariant forall j :: 0 <= j < i ==> host.parse(rawCerts[j]) == Ok(certs[j])
      {
        var r := host.parse(rawCerts[i]);
        if r.Fail? {
          parseErr := Some(r.err);
          break;
        }
        certs[i] := r.value;
        i := i + 1;
      }
      if parseErr.Some? {
        ParseAllFirstFailure(rawCerts, host.parse, i);
        err := Some(Wrapped(ParseContext, parseErr.value));
        ReleaseError(err.value);
        return;
      }
      ghost var parsed := certs[..];
      ParseAllOk(rawCerts, host.parse, parsed);
      ParsedDecides(s, rawCerts, host, parsed);

      if !s.skipTLSVerify {
        var pool: seq<Cert> := [];
        for k := 1 to certs.Length
          invariant pool == certs[1..k]
        {
          pool := pool + [certs[k]];
        }
        assert pool == parsed[1..];
        var chain := host.verify(certs[0], X509Options(host.now, s.dnsName, pool));
        match chain {
          case ChainInvalid(reason, e) =>
            if reason == Expired {
              err := Some(CertExpired);
            } else {
              err := Some(e);
            }
            ReleaseError(err.value);
            return;
          case ChainFailed(e) =>
            err := Some(e);
            ReleaseError(e);
            return;
          case ChainOk =>
            assert ChainCheck(s, parsed, host) == None;
        }
      }

      if |s.sha1Fingerprint| > 0 {
        var got := host.fingerprint(certs[0]);
        assert certs[0] == parsed[0];
        if got.Fail? {
          err := Some(Wrapped(FingerprintContext, got.err));
          ReleaseError(err.value);
          return;
        }
        if NormalHex(s.sha1Fingerprint) != NormalHex(got.value) {
          err := Some(NotMatchedFingerprint);
          ReleaseError(err.value);
          return;
        }
      }
      err := None;
    }
  }

  /** A verifier made with a context, called back once by the TLS stack: the callback
      returns `Decision`, the verifier's `Wait` returns that same result, and the context's
      cancel function has been called exactly twice, once by the release that resolved the
      waiter and once by `Wait`. */
  method CallbackThenWait(sets: seq<VerifyOption>, rawCerts: seq<Der>, host: Host)
    returns (returned: Option<Error>, waited: Option<Error>, cancelCalls: nat)
    requires LeafAvailable(Fold(Zero, sets), rawCerts)
    ensures returned == Decision(Fold(Zero, sets), rawCerts, host)
    ensures waited == returned
    ensures cancelCalls == 2
  {
    var v := new PeerVerifier.WithContext(sets);
    returned := v.VerifyPeerCertificate(rawCerts, host);
    waited := v.Wait();
    cancelCalls := v.waitErr.cancelCalls;
  }
}
