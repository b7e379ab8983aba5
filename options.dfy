/** The verifier's option record, its setters and its event sink (tls/verify/options.go).

    A setter in Go is a closure that writes one field of the record through a pointer. Here
    a setter is a value of `VerifyOption` naming what the closure would write, and applying
    it is `VerifierOptions.Apply`. `Settings` is the value of the record; `Applied` and
    `Fold` say what one setter and a list of setters do to it. */
module Options {
  import opened Errs

  /** The closed union of verifier events (`Event_Begin`, `Event_Done`, `Event_Err`); only
      the error case carries a payload. */
  datatype Event = Begin | Done | Err(err: Error)

  /** A Go channel of events, as a bounded buffer: a send is accepted while the buffer has
      room. An unbuffered channel has capacity 0. */
  class Chan {
    const capacity: nat
    var buffer: seq<Event>

    ghost predicate Valid()
      reads this
    {
      |buffer| <= capacity
    }

    /** `make(chan Event, capacity)`. */
    constructor (capacity: nat)
      ensures Valid() && this.capacity == capacity && buffer == []
    {
      this.capacity := capacity;
      buffer := [];
    }
  }

  /** The setters `Events(ch)`, `SkipTLSVerify()`, `FingerprintSHA1(hex)`, `DNSName(name)`. */
  datatype VerifyOption =
    | Events(ch: Chan?)
    | SkipTLSVerify
    | FingerprintSHA1(sha1hex: string)
    | DNSName(dnsName: string)

  /** The fields of the option record. */
  datatype Field = SkipField | DnsField | FingerprintField | EventsField

  /** The field a setter writes. */
  function Target(opt: VerifyOption): Field {
    match opt
    case Events(_) => EventsField
    case SkipTLSVerify => SkipField
    case FingerprintSHA1(_) => FingerprintField
    case DNSName(_) => DnsField
  }

  /** The value of the option record `verifyPeerCertificateOptions`. */
  datatype Settings = Settings(skipTLSVerify: bool, dnsName: string, sha1Fingerprint: string, eventChan: Chan?)

  /** The zero record every verifier starts from. */
  const Zero: Settings := Settings(false, "", "", null)

  /** `a` and `b` hold the same value in field `f`. */
  predicate Agree(a: Settings, b: Settings, f: Field) {
    match f
    case SkipField => a.skipTLSVerify == b.skipTLSVerify
    case DnsField => a.dnsName == b.dnsName
    case FingerprintField => a.sha1Fingerprint == b.sha1Fingerprint
    case EventsField => a.eventChan == b.eventChan
  }

  /** The field `opt` targets holds the value `opt` writes. */
  predicate Holds(s: Settings, opt: VerifyOption) {
    match opt
    case Events(ch) => s.eventChan == ch
    case SkipTLSVerify => s.skipTLSVerify
    case FingerprintSHA1(h) => s.sha1Fingerprint == h
    case DNSName(n) => s.dnsName == n
  }

  /** Running one setter: it writes its own field and leaves the other three alone. */
  function Applied(s: Settings, opt: VerifyOption): (r: Settings)
    ensures Holds(r, opt)
    ensures forall f :: f != Target(opt) ==> Agree(r, s, f)
  {
    match opt
    case Events(ch) => s.(eventChan := ch)
    case SkipTLSVerify => s.(skipTLSVerify := true)
    case FingerprintSHA1(h) => s.(sha1Fingerprint := h)
    case DNSName(n) => s.(dnsName := n)
  }

  /** Running a list of setters left to right. */
  function Fold(s: Settings, sets: seq<VerifyOption>): Settings
    decreases |sets|
  {
    if sets == [] then s
    else Applied(Fold(s, sets[..|sets| - 1]), sets[|sets| - 1])
  }

  /** A setter that no later setter overrides decides its field. */
  lemma {:induction false} FoldLastWins(s: Settings, sets: seq<VerifyOption>, k: nat)
    requires k < |sets|
    requires forall j :: k < j < |sets| ==> Target(sets[j]) != Target(sets[k])
    ensures Holds(Fold(s, sets), sets[k])
  {
    var n := |sets| - 1;
    if k < n {
      FoldLastWins(s, sets[..n], k);
      var before := Fold(s, sets[..n]);
      assert Agree(Applied(before, sets[n]), before, Target(sets[k]));
    }
  }

  /** A field no setter targets keeps its starting value. */
  lemma {:induction false} FoldUntargeted(s: Settings, sets: seq<VerifyOption>, f: Field)
    requires forall j :: 0 <= j < |sets| ==> Target(sets[j]) != f
    ensures Agree(Fold(s, sets), s, f)
  {
    if sets != [] {
      var n := |sets| - 1;
      FoldUntargeted(s, sets[..n], f);
      var before := Fold(s, sets[..n]);
      assert Agree(Applied(before, sets[n]), before, f);
    }
  }

  /** From the zero record, skipping is on exactly when some setter is `SkipTLSVerify`: no
      setter ever turns it off again. */
  lemma {:induction false} FoldSkip(s: Settings, sets: seq<VerifyOption>)
    ensures Fold(s, sets).skipTLSVerify
        == (s.skipTLSVerify || exists j :: 0 <= j < |sets| && sets[j].SkipTLSVerify?)
  {
    if sets != [] {
      var n := |sets| - 1;
      FoldSkip(s, sets[..n]);
      if exists j :: 0 <= j < n && sets[..n][j].SkipTLSVerify? {
        var j :| 0 <= j < n && sets[..n][j].SkipTLSVerify?;
        assert sets[j].SkipTLSVerify?;
      }
      if exists j :: 0 <= j < |sets| && sets[j].SkipTLSVerify? {
        var j :| 0 <= j < |sets| && sets[j].SkipTLSVerify?;
        if j < n {
          assert sets[..n][j].SkipTLSVerify?;
        }
      }
    }
  }

  /** Folding a concatenation is folding the parts one after the other. */
  lemma {:induction false} FoldConcat(s: Settings, a: seq<VerifyOption>, b: seq<VerifyOption>)
    ensures Fold(s, a + b) == Fold(Fold(s, a), b)
  {
    if b != [] {
      var n := |b| - 1;
      assert (a + b)[..|a + b| - 1] == a + b[..n];
      assert (a + b)[|a + b| - 1] == b[n];
      FoldConcat(s, a, b[..n]);
    } else {
      assert a + b == a;
    }
  }

  /** `SkipTLSVerify` is idempotent. */
  lemma SkipIdempotent(s: Settings)
    ensures Applied(Applied(s, SkipTLSVerify), SkipTLSVerify) == Applied(s, SkipTLSVerify)
  {
  }

  /** The option record as a mutable object, as the setters see it through their pointer. */
  class VerifierOptions {
    var skipTLSVerify: bool
    var dnsName: string
    var sha1Fingerprint: string
    var eventChan: Chan?

    function Value(): Settings
      reads this
    {
      Settings(skipTLSVerify, dnsName, sha1Fingerprint, eventChan)
    }

    /** `&verifyPeerCertificateOptions{}`. */
    constructor ()
      ensures Value() == Zero
    {
      skipTLSVerify := false;
      dnsName := "";
      sha1Fingerprint := "";
      eventChan := null;
    }

    /** Calling a setter closure on this record. */
    method Apply(opt: VerifyOption)
      modifies this
      ensures Value() == Applied(old(Value()), opt)
    {
      match opt
      case Events(ch) => eventChan := ch;
      case SkipTLSVerify => skipTLSVerify := true;
      case FingerprintSHA1(h) => sha1Fingerprint := h;
      case DNSName(n) => dnsName := n;
    }

    /** `sendEvent`: without a channel nothing happens; otherwise the event is put in the
        channel if it can take it and dropped if not. It never blocks. */
    method SendEvent(e: Event)
      requires eventChan != null ==> eventChan.Valid()
      modifies eventChan
      ensures eventChan == old(eventChan)
      ensures eventChan != null ==> eventChan.Valid()
      ensures eventChan != null ==>
        eventChan.buffer == if |old(eventChan.buffer)| < eventChan.capacity
                            then old(eventChan.buffer) + [e] else old(eventChan.buffer)
    {
      if eventChan == null {
        return;
      }
      if |eventChan.buffer| < eventChan.capacity {
        eventChan.buffer := eventChan.buffer + [e];
      }
    }
  }
}
