# TLS peer verification for gebv/go-lib, modelled in Dafny

The library lets a Go client pin and verify the TLS certificate a server presents. It
plugs a callback into `tls.Config.VerifyPeerCertificate` and uses
`InsecureSkipVerify: true` to switch off the standard check. The callback does three
things in order:

1. It parses the raw certificates.
2. It verifies the chain with the leaf as the target and the others as intermediates,
   unless `SkipTLSVerify` is set. An expired certificate becomes `ErrCertExpired`.
3. If a SHA-1 fingerprint is configured, it compares that fingerprint with the leaf's.
   Both are normalised first, so colon-separated and bare hex in either case compare equal.

The callback's result is also recorded in a one-shot waiter. Only the first result
counts, and a later `Wait` returns it. The gRPC helper `Dial` wires the verifier into a
TLS credential. It optionally probes the address with a TCP connect first. It then
waits for the first of three things: a timeout, an error event, or the dial's result.

The model has six modules:

- `Errs` (errs.dfy): the error values and the `Option`/`Result` types.
- `Hex` (hex.dfy): `normalHex`, with the written forms of a digest.
- `Waiter` (waiter.dfy): the one-shot waiter of internal/errors/errors.go, as a class.
- `Options` (options.dfy): the verifier's option record as a class, and its setters as a
  datatype applied by `Apply`. It also holds the pure value `Settings`, with `Applied`
  and `Fold` as the specification of setters. Events and channels are here too.
- `Verify` (verify.dfy): the verifier class and its callback, a method with the parse loop
  and the intermediates loop. `Decision` is the callback's specification, a pure
  function, and the lemmas about it state what the callback promises.
- `GrpcDial` (dial.dfy): the dial options, the option list `Dial` builds, the select loop
  as a method proved against the function `Race`, and `Dial` itself, both as written and
  corrected (see Findings).

Foreign calls are inputs:

- x509 certificate parsing, `Certificate.Verify`, the SHA-1 fingerprint library and
  `time.Now()` are the fields of the `Host` datatype, which the callback receives.
- The TCP probe of `Dial` is an `Option<Error>`.
- The values that reach the select loop are a sequence of `Arrival`s. Each arrival gives
  how long after the start of its loop iteration it arrives.

Points where the code's behaviour is easy to misread:

- The callback never sends an event. `sendEvent` exists, but `Option()` does not call
  it. So in `Dial` only the timer and the dial's result can end the loop.
- `Dial` creates its events channel unbuffered (`make(chan verify.Event)`), not with a
  buffer of one.
- `Dial` creates the timer anew in each loop iteration (tls/verify/grpc/grpc.go:77). The
  bound therefore applies from the start of each iteration, not from the start of the
  dial. `GrpcDial.TimeoutRestartsOnEvents` shows this. It describes the loop's code for
  event sequences that this `Dial` never produces: since the callback sends no events,
  the loop always ends in its first iteration.
- tls/verify/grpc/grpc.go:52 calls `verify.VerifyPeerCertificate`. tls/verify/verity.go
  names the constructor `TLSVerifyPeerCertificate`, and tls/verify/options.go names the
  option type `VerifyPeerCertificateOption` while tls/verify/verity.go says
  `tlsVerifyPeerCertificateOption`. The model treats each pair as one entity.

## Model

| member | source | states |
|---|---|---|
| Hex.JoinSplit | tls/verify/hex.go:7 | Splitting on a character and joining with nothing is the same as removing every occurrence of that character. |
| Hex.ToLower | tls/verify/hex.go:9 | `strings.ToLower` on ASCII: same length, each character lower-cased in place. |
| Hex.Split | tls/verify/hex.go:7 | `strings.Split` on one character: one more piece than there are separators, and no piece contains the separator. |
| Hex.Join | tls/verify/hex.go:7 | `strings.Join` with an empty separator: the pieces concatenated in order. It has no contract of its own; `JoinSplit` states what it does with `Split`. |
| Hex.NormalHex | tls/verify/hex.go:5-10 | Both branches of `normalHex` equal "remove every ':' and lower-case". The `Contains` test only skips work. |
| Hex.NormalHexIsNormal | tls/verify/hex.go:5-10 | The output contains no ':' and no upper-case letter. Its length is the input's length minus the number of ':'. |
| Hex.NormalHexFixesNormal | tls/verify/hex.go:5-10 | An input with no ':' and no upper-case letter maps to itself. |
| Hex.NormalHexIdempotent | tls/verify/hex.go:5-10 | Normalising twice is the same as normalising once. |
| Hex.NormalHexIgnoresColon | tls/verify/hex.go:5-10 | Inserting a ':' at any position leaves the normal form unchanged. |
| Hex.NormalHexIgnoresCase | tls/verify/hex.go:5-10 | Two strings that agree letter for letter up to case have the same normal form. |
| Hex.DigestFormsAgree | tls/verify/hex_test.go:12-14 | A digest written colon-separated or bare, in upper or lower case, always normalises to bare lower-case hex. |
| Hex.ColonAndBareExample | tls/verify/hex.go:5-10 | "AB:CD:EF" and "abcdef" both normalise to "abcdef". |
| Waiter.OneErrorWaiter.constructor | internal/errors/errors.go:10-14 | A new waiter is unresolved, its counter is 1, and it has no cancel function. |
| Waiter.OneErrorWaiter.WithContext | internal/errors/errors.go:16-21 | The same, with a cancel function attached that has not been called yet. |
| Waiter.OneErrorWaiter.Release | internal/errors/errors.go:39-48 | The first release stores its error, lowers the counter from 1 to 0 and calls the cancel function once if there is one. Every later release changes nothing. |
| Waiter.OneErrorWaiter.Wait | internal/errors/errors.go:30-37 | Once resolved, returns the stored result unchanged and calls the cancel function if there is one. |
| Waiter.ReleaseNilThenWait | internal/errors/errors.go:30-48 | Releasing nil and then waiting yields nil. |
| Waiter.ReleaseManyThenWait | internal/errors/errors.go:30-48 | Whatever results are released, every wait returns the first one. A context waiter's cancel function is called once by the releases and once more per wait. |
| Options.Applied | tls/verify/options.go:12-34 | A setter writes exactly its own field, with its own value, and leaves the other three fields unchanged. |
| Options.Fold | tls/verify/verity.go:24-26 | The setter loop as a left fold. It has no contract of its own; `FoldLastWins`, `FoldUntargeted`, `FoldSkip` and `FoldConcat` state what it does. |
| Options.FoldLastWins | tls/verify/verity.go:24-26 | When setters run in order, the last setter of each field decides that field. |
| Options.FoldUntargeted | tls/verify/verity.go:24-26 | A field that no setter targets keeps its zero value. |
| Options.FoldSkip | tls/verify/options.go:18-22 | Skipping is on exactly when it started on or some setter is `SkipTLSVerify`. No setter turns it off. |
| Options.FoldConcat | tls/verify/verity.go:24-26 | Running the setters `a + b` is the same as running `a` and then `b`. |
| Options.SkipIdempotent | tls/verify/options.go:18-22 | Applying `SkipTLSVerify` twice is the same as applying it once. |
| Options.VerifierOptions.constructor | tls/verify/verity.go:21 | The option record starts as the zero record. |
| Options.VerifierOptions.Apply | tls/verify/options.go:12-34 | Calling a setter on the record changes the record as `Applied` says. |
| Options.VerifierOptions.SendEvent | tls/verify/options.go:36-44 | Without a channel nothing happens. Otherwise the event is queued if the channel has room and dropped if not, so the call never blocks. |
| Options.Chan.constructor | tls/verify/grpc/grpc.go:44 | A new channel is empty and has the given capacity. |
| Verify.ChainCheck | tls/verify/verity.go:80-101 | The chain step as a function of `Certificate.Verify`'s result. It has no contract of its own; `ChainCheckOutcome` states it case by case. |
| Verify.FingerprintCheck | tls/verify/verity.go:104-116 | The pinning step. It has no contract of its own; `FingerprintPinning`, `PinnedDigestAnyForm` and `FingerprintLibraryFailure` state it. |
| Verify.Decision | tls/verify/verity.go:57-119 | The callback's result as a function of the options, the raw certificates and the foreign calls. It has no contract of its own; `DecisionAccepts` ties it to the step-by-step `Accepted`. The error of each failing step is stated by `ParseFailureDecides`, `ExpiredBeforeFingerprint`, `OtherChainErrorUnchanged`, `FingerprintLibraryFailure` and `FingerprintPinning`. |
| Verify.Checks | tls/verify/verity.go:80-118 | The steps after parsing: the chain step unless skipped, then pinning if a fingerprint is configured. It has no contract of its own; `ChainPassDecides` and `ChainFailureDecides` state how the steps combine. |
| Verify.ParsedDecides | tls/verify/verity.go:69-80 | Once every certificate parses, the steps after parsing decide the result, and there are as many parsed certificates as raw ones. |
| Verify.ChainPassDecides | tls/verify/verity.go:102-118 | Once the chain step passes or is skipped, only pinning remains. Without a configured fingerprint the result is nil. |
| Verify.ParseAll | tls/verify/verity.go:69-78 | On success every certificate parsed, in order. On failure the error is the parse failure of some input. |
| Verify.ParseAllOk | tls/verify/verity.go:69-78 | When every certificate parses, the result is exactly the list of parsed certificates. |
| Verify.ParseAllFirstFailure | tls/verify/verity.go:70-76 | The first certificate that fails to parse gives the error. |
| Verify.ParseFailureDecides | tls/verify/verity.go:70-76 | A parse failure decides the result as the wrapped "failed to parse certificate from server" error. Chain verification and the fingerprint library do not change it. |
| Verify.ChainCheckOutcome | tls/verify/verity.go:80-101 | The chain step passes iff `Verify` succeeds. Expired becomes `ErrCertExpired`. Any other invalid reason or other error is returned as it is. |
| Verify.ChainFailureDecides | tls/verify/verity.go:80-101 | Without skipping, a failing chain step decides the result. |
| Verify.ExpiredBeforeFingerprint | tls/verify/verity.go:86-91 | Without skipping, an expired certificate gives `ErrCertExpired`, whatever the fingerprint library would say. |
| Verify.OtherChainErrorUnchanged | tls/verify/verity.go:92-100 | Without skipping, any other chain error is returned unchanged. |
| Verify.SkipBypassesChain | tls/verify/verity.go:80 | With skipping, chain verification is never consulted. With no fingerprint either, every chain that parses is accepted. |
| Verify.FingerprintPinning | tls/verify/verity.go:104-116 | After the chain step passes, a configured fingerprint is accepted iff both normal forms agree. Otherwise the result is `ErrNotMatchedFingerprint`. |
| Verify.FingerprintLibraryFailure | tls/verify/verity.go:105-109 | After the chain step passes, a failure of the fingerprint library is returned wrapped with "failed to create a fingerprint for server cert". |
| Verify.PinnedDigestAnyForm | tls/verify/verity.go:111 | A configured fingerprint matches the computed one when both are the same digest, each in any of its four written forms. |
| Verify.NoFingerprintNoPinning | tls/verify/verity.go:104 | With an empty fingerprint, the fingerprint library is never consulted. |
| Verify.DecisionAccepts | tls/verify/verity.go:57-119 | The callback returns nil iff every certificate parses, the chain verifies unless skipped, and the fingerprints agree unless none is configured. |
| Verify.PeerVerifier.constructor | tls/verify/verity.go:19-28 | The options are the zero record with the setters applied in order. The waiter is fresh, unresolved and has no cancel function. |
| Verify.PeerVerifier.WithContext | tls/verify/verity.go:30-40 | The same, with a waiter whose cancel function has not been called yet. |
| Verify.PeerVerifier.Wait | tls/verify/verity.go:50-55 | Without a waiter, returns the error "error waiter in nil". Otherwise returns the waiter's stored result. |
| Verify.PeerVerifier.ReleaseError | tls/verify/verity.go:122-126 | The waiter, if any, ends up resolved. The error is stored, and a context waiter's cancel function called once, only if the waiter was not resolved before. |
| Verify.PeerVerifier.ReleaseDone | tls/verify/verity.go:128-132 | The waiter, if any, ends up resolved. Nil is stored, and a context waiter's cancel function called once, only if the waiter was not resolved before. |
| Verify.PeerVerifier.Evaluate | tls/verify/verity.go:60-118 | Returns `Decision`. A failing step has been released to the waiter, which cancels its context if this release resolved it. On success the waiter is untouched. |
| Verify.PeerVerifier.VerifyPeerCertificate | tls/verify/verity.go:57-120 | Returns `Decision`. The waiter ends up holding that same result, or an earlier one if it was already resolved. A context waiter's cancel function is called once if this call resolved it, and not otherwise. |
| Verify.CallbackThenWait | tls/verify/verity.go:30-59 | For a verifier made with a context, the callback returns `Decision`, `Wait` returns the same result, and the cancel function has been called exactly twice: by the release and by `Wait`. |
| GrpcDial.Applied | tls/verify/grpc/grpc.go:123-155 | A dial setter writes exactly its own field and nothing else. `AddStdGRPCOptions` replaces the list of gRPC options. |
| GrpcDial.Fold | tls/verify/grpc/grpc.go:18-21 | The dial's setter loop as a left fold. It has no contract of its own; `GrpcDial.FoldLastWins` and `GrpcDial.FoldUntargeted` state what it does. |
| GrpcDial.FoldLastWins | tls/verify/grpc/grpc.go:18-21 | The last setter of each field decides it, including the last `AddStdGRPCOptions`. |
| GrpcDial.FoldUntargeted | tls/verify/grpc/grpc.go:18-21 | A field that no setter targets keeps its zero value. |
| GrpcDial.DialOptions.constructor | tls/verify/grpc/grpc.go:18 | The dial option record starts as the zero record. |
| GrpcDial.DialOptions.Apply | tls/verify/grpc/grpc.go:123-155 | Calling a setter on the record changes it as `Applied` says. |
| GrpcDial.CollectOptions | tls/verify/grpc/grpc.go:18-21 | The record holds the fold of the setters over the zero record. |
| GrpcDial.VerifierOptionsFor | tls/verify/grpc/grpc.go:35-45 | The verifier options are `FingerprintSHA1` (only if a fingerprint is given), then `SkipTLSVerify` (only if set), then `Events`. The verifier they build pins the dial's fingerprint, skips exactly when the dial does, checks no DNS name and reports to the channel. |
| GrpcDial.LoopTimeout | tls/verify/grpc/grpc.go:69-72 | The timeout is positive. It is `TryConnectTimeout` when that is positive, and one second otherwise. |
| GrpcDial.Race | tls/verify/grpc/grpc.go:75-101 | The select loop as a fold over the arrivals. It has no contract of its own; `RaceDecidedByFirstEnd` states its outcome. |
| GrpcDial.RaceDecidedByFirstEnd | tls/verify/grpc/grpc.go:75-101 | The first arrival that ends the loop decides the outcome: the timer gives `ErrNotResponse`, an error event gives its error, a closed result channel gives "no result", and a dial result gives its error or its connection. With no such arrival the outcome is `ErrNotResponse`. The loop never panics. |
| GrpcDial.BeginDoneContinue | tls/verify/grpc/grpc.go:82-83 | A Begin or Done event that arrives within the timeout does not change the outcome. |
| GrpcDial.TimeoutRestartsOnEvents | tls/verify/grpc/grpc.go:77 | A connection can still arrive after more than one timeout in total, if events keep resetting the timer. |
| GrpcDial.SelectLoop | tls/verify/grpc/grpc.go:75-101 | The loop's outcome is `Race` of the arrivals. |
| GrpcDial.FirstEnd | tls/verify/grpc/grpc.go:75-101 | The index of the first arrival that ends the loop: no earlier arrival ends it, and the one at the index does. |
| GrpcDial.StartDial | tls/verify/grpc/grpc.go:35-55 | A fresh unbuffered events channel is made. The gRPC options are the caller's. Unless `PlainText` is set, they are followed by one TLS credential with `InsecureSkipVerify` and a verifier that carries the dial's fingerprint and skip flag and reports to that channel. |
| GrpcDial.DialAsWritten | tls/verify/grpc/grpc.go:17-102 | `Dial`'s outcome as the code has it: a failed probe is returned, a successful probe ends in a panic, and otherwise the loop decides. It has no contract of its own; `TryConnectPanics` exhibits the panic. |
| GrpcDial.DialIntended | tls/verify/grpc/grpc.go:17-102 | `Dial`'s outcome with the context created on both paths. It has no contract of its own; `DialIntendedOutcome` states it. |
| GrpcDial.DialIntendedOutcome | tls/verify/grpc/grpc.go:25-33 | In the intended dial, a failed probe is returned as it is. Otherwise the loop decides under `LoopTimeout`. It never panics. |
| GrpcDial.TryConnectPanics | tls/verify/grpc/grpc.go:23-33 | `TryConnect(time.Second)` with a successful probe and an immediate connection panics as written. The intended dial returns the connection. |
| GrpcDial.Dial | tls/verify/grpc/grpc.go:17-102 | The outcome is `DialAsWritten`. Nothing is dialed iff the probe was requested and failed. Otherwise the gRPC dial starts with the options `StartDial` describes, wired to the unbuffered channel `Dial` made. |
| GrpcDial.DialCorrected | tls/verify/grpc/grpc.go:17-102 | The same, with the outcome `DialIntended`, which is never a panic. |

## Left out

- tls/verify/http.go (`HttpClient`, which only places the same callback into an `http.Transport`) is not part of this model.
- Hex.ToLower: only ASCII letters are lower-cased. `strings.ToLower` also folds non-ASCII letters, which cannot occur in a hex fingerprint.
- Goroutines, blocking and the scheduler are not modelled:
  - `Wait` requires the waiter to be resolved instead of blocking.
  - `Dial`'s goroutine and timer are replaced by the sequence of arrivals.
- When two select cases are ready at the same time, Go picks one at random. The model lets the timer win when an arrival comes exactly at the timeout.
- Options.VerifierOptions.SendEvent: the channel is a bounded buffer. A send on an unbuffered channel that a receiver is already waiting on is not modelled, so such a send is dropped here.
- Waiter.OneErrorWaiter.WithContext: the derived `context.Context` is not modelled. The cancel function is represented only by the count of its calls.
- Verify.PeerVerifier.VerifyPeerCertificate: the verified chains the callback receives are ignored by the source too, and they are not parameters. The callback requires a leaf certificate unless both the chain check and pinning are off. Without one the source would index an empty slice. The TLS stack always passes the server's certificates.
- Root CAs are never set in the source's `x509.VerifyOptions` (a TODO there). Chain verification is foreign anyway.
- The `conn.Close()` of `Dial`'s TCP probe and the address are not modelled. The probe is reduced to its error.
- The real `grpc.DialContext` and the connections it returns are left out, and so are `context.WithCancel` and the parent context.
- Error values are compared by identity in the source. Here they are values of the `Error` datatype: `Wrapped` stands for `errors.Wrap`, and `Opaque` for an `errors.New` without an exported name.

## Findings

| source | as written | input that shows it | evidently intended | confidence | as-written member | corrected member |
|---|---|---|---|---|---|---|
| tls/verify/grpc/grpc.go:23-33, 74 | With `TryConnectTimeout > 0` only the probe runs. `ctx` and `cancel` stay nil, and the deferred `cancel()` panics whenever `Dial` returns. The gRPC dial also receives a nil context. | `Dial(ctx, addr, TryConnect(time.Second))` with a reachable address and a connection that comes at once | The cancellable context is created on both paths, and `Dial` returns the loop's outcome | not executed | GrpcDial.TryConnectPanics | GrpcDial.DialCorrected |
