/** Fingerprint normalisation (`normalHex`, tls/verify/hex.go).

    A SHA-1 fingerprint is accepted colon-separated or bare, in either case; both are
    brought to one canonical form, bare lower-case hex, before they are compared. */
module Hex {

  predicate IsUpper(c: char) {
    'A' <= c <= 'Z'
  }

  /** ASCII lower-casing of one character. */
  function LowerChar(c: char): char {
    if IsUpper(c) then (c as int + 32) as char else c
  }

  /** `strings.ToLower`, restricted to ASCII. */
  function ToLower(s: string): (r: string)
    ensures |r| == |s|
    ensures forall i :: 0 <= i < |s| ==> r[i] == LowerChar(s[i])
  {
    seq(|s|, i requires 0 <= i < |s| => LowerChar(s[i]))
  }

  /** `strings.Split(s, sep)` for a one-character separator: the maximal separator-free
      pieces, in order; there is one more (possibly empty) piece than there are separators. */
  function Split(s: string, sep: char): (parts: seq<string>)
    ensures |parts| == Count(s, sep) + 1
    ensures forall k :: 0 <= k < |parts| ==> sep !in parts[k]
  {
    if s == [] then [[]]
    else
      var rest := Split(s[1..], sep);
      if s[0] == sep then [[]] + rest
      else [[s[0]] + rest[0]] + rest[1..]
  }

  /** `strings.Join(parts, "")`. */
  function Join(parts: seq<string>): string {
    if parts == [] then [] else parts[0] + Join(parts[1..])
  }

  /** `s` with every occurrence of `c` removed: the independent definition of what
      splitting on `c` and joining with nothing does. */
  function Without(s: string, c: char): string {
    if s == [] then []
    else (if s[0] == c then [] else [s[0]]) + Without(s[1..], c)
  }

  /** The number of occurrences of `c` in `s`. */
  function Count(s: string, c: char): nat {
    if s == [] then 0
    else (if s[0] == c then 1 else 0) + Count(s[1..], c)
  }

  /** `normalHex`: strip every ':' (only when there is one), then lower-case. Both branches
      agree with "remove every ':' and lower-case": the `Contains` test only skips work. */
  function NormalHex(s: string): (r: string)
    ensures r == ToLower(Without(s, ':'))
  {
    var stripped := if ':' in s then (JoinSplit(s, ':'); Join(Split(s, ':'))) else (WithoutAbsent(s, ':'); s);
    ToLower(stripped)
  }

  /** A canonical fingerprint: no ':' and no upper-case letter. */
  predicate IsNormal(s: string) {
    forall i :: 0 <= i < |s| ==> s[i] != ':' && !IsUpper(s[i])
  }

  // ----- facts about the building blocks -----

  lemma {:induction false} WithoutConcat(a: string, b: string, c: char)
    ensures Without(a + b, c) == Without(a, c) + Without(b, c)
  {
    if a == [] {
      assert a + b == b;
    } else {
      assert (a + b)[1..] == a[1..] + b;
      WithoutConcat(a[1..], b, c);
    }
  }

  lemma {:induction false} WithoutAbsent(s: string, c: char)
    requires c !in s
    ensures Without(s, c) == s
  {
    if s != [] {
      WithoutAbsent(s[1..], c);
    }
  }

  lemma {:induction false} WithoutFacts(s: string, c: char)
    ensures c !in Without(s, c)
    ensures |Without(s, c)| == |s| - Count(s, c)
  {
    if s != [] {
      WithoutFacts(s[1..], c);
    }
  }

  /** Splitting on `c` and joining with nothing removes every `c`. */
  lemma {:induction false} JoinSplit(s: string, c: char)
    ensures Join(Split(s, c)) == Without(s, c)
  {
    if s != [] {
      var rest := Split(s[1..], c);
      JoinSplit(s[1..], c);
      if s[0] == c {
        assert ([[]] + rest)[1..] == rest;
      } else {
        var parts := [[s[0]] + rest[0]] + rest[1..];
        assert parts[1..] == rest[1..];
        calc {
          Join(parts);
          ([s[0]] + rest[0]) + Join(rest[1..]);
          [s[0]] + (rest[0] + Join(rest[1..]));
          [s[0]] + Join(rest);
        }
      }
    }
  }

  lemma ToLowerConcat(a: string, b: string)
    ensures ToLower(a + b) == ToLower(a) + ToLower(b)
  {
    assert forall i :: 0 <= i < |a + b| ==> ToLower(a + b)[i] == (ToLower(a) + ToLower(b))[i];
  }

  // ----- the properties of normalHex -----

  /** The output is canonical: no ':' and no upper-case letter; its length is the input's
      length less the number of ':'. */
  lemma NormalHexIsNormal(s: string)
    ensures IsNormal(NormalHex(s))
    ensures |NormalHex(s)| == |s| - Count(s, ':')
  {
    WithoutFacts(s, ':');
    var w := Without(s, ':');
    forall i | 0 <= i < |w|
      ensures NormalHex(s)[i] != ':' && !IsUpper(NormalHex(s)[i])
    {
      assert w[i] in w;
    }
  }

  /** Digits and lower-case letters pass through unchanged: a canonical input is its own
      normal form (so "" and "abc" map to themselves). */
  lemma NormalHexFixesNormal(s: string)
    requires IsNormal(s)
    ensures NormalHex(s) == s
  {
    assert ':' !in s by {
      forall i | 0 <= i < |s| ensures s[i] != ':' { }
    }
  }

  lemma NormalHexIdempotent(s: string)
    ensures NormalHex(NormalHex(s)) == NormalHex(s)
  {
    NormalHexIsNormal(s);
    NormalHexFixesNormal(NormalHex(s));
  }

  /** Inserting a ':' anywhere leaves the normal form unchanged. */
  lemma NormalHexIgnoresColon(s: string, i: nat)
    requires i <= |s|
    ensures NormalHex(s[..i] + ":" + s[i..]) == NormalHex(s)
  {
    var a, b := s[..i], s[i..];
    assert a + b == s;
    WithoutConcat(a + ":", b, ':');
    WithoutConcat(a, ":", ':');
    WithoutConcat(a, b, ':');
    assert Without(":", ':') == [];
    assert Without(a + ":" + b, ':') == Without(a, ':') + Without(b, ':');
  }

  /** Strings that agree letter for letter up to case have one normal form. */
  lemma {:induction false} NormalHexIgnoresCase(s: string, t: string)
    requires |s| == |t|
    requires forall k :: 0 <= k < |s| ==> LowerChar(s[k]) == LowerChar(t[k])
    ensures NormalHex(s) == NormalHex(t)
  {
    if s != [] {
      NormalHexIgnoresCase(s[1..], t[1..]);
      assert s[0] == ':' <==> t[0] == ':';
      var hs := if s[0] == ':' then [] else [s[0]];
      var ht := if t[0] == ':' then [] else [t[0]];
      ToLowerConcat(hs, Without(s[1..], ':'));
      ToLowerConcat(ht, Without(t[1..], ':'));
    }
  }

  // ----- the written forms of one digest -----

  type Octet = x: int | 0 <= x < 256

  function HexDigit(n: int, upper: bool): char
    requires 0 <= n < 16
  {
    if n < 10 then ('0' as int + n) as char
    else if upper then ('A' as int + n - 10) as char
    else ('a' as int + n - 10) as char
  }

  function OctetHex(o: Octet, upper: bool): string {
    [HexDigit(o / 16, upper), HexDigit(o % 16, upper)]
  }

  /** A digest as bare hex, two digits per octet. */
  function BareHex(d: seq<Octet>, upper: bool): string {
    if d == [] then [] else OctetHex(d[0], upper) + BareHex(d[1..], upper)
  }

  /** A digest as colon-separated hex octets ("7E:12:49:..."). */
  function ColonHex(d: seq<Octet>, upper: bool): string {
    if |d| <= 1 then BareHex(d, upper)
    else OctetHex(d[0], upper) + ":" + ColonHex(d[1..], upper)
  }

  lemma {:induction false} ColonHexWithout(d: seq<Octet>, upper: bool)
    ensures Without(ColonHex(d, upper), ':') == BareHex(d, upper)
  {
    if |d| <= 1 {
      assert ':' !in BareHex(d, upper) by {
        if d != [] {
          assert BareHex(d, upper) == OctetHex(d[0], upper) + BareHex(d[1..], upper);
          assert d[1..] == [];
        }
      }
      WithoutAbsent(BareHex(d, upper), ':');
    } else {
      var h := OctetHex(d[0], upper);
      ColonHexWithout(d[1..], upper);
      WithoutConcat(h + ":", ColonHex(d[1..], upper), ':');
      WithoutConcat(h, ":", ':');
      WithoutAbsent(h, ':');
      assert Without(":", ':') == [];
    }
  }

  lemma {:induction false} BareHexLower(d: seq<Octet>)
    ensures ToLower(BareHex(d, true)) == BareHex(d, false)
    ensures ':' !in BareHex(d, true)
  {
    if d != [] {
      BareHexLower(d[1..]);
      ToLowerConcat(OctetHex(d[0], true), BareHex(d[1..], true));
    }
  }

  lemma ToLowerIdempotent(s: string)
    ensures ToLower(ToLower(s)) == ToLower(s)
  {
  }

  /** The four written forms of one digest (colon-separated or bare, upper- or lower-case)
      all normalise to the bare lower-case form. */
  lemma DigestFormsAgree(d: seq<Octet>)
    ensures NormalHex(ColonHex(d, true)) == BareHex(d, false)
    ensures NormalHex(ColonHex(d, false)) == BareHex(d, false)
    ensures NormalHex(BareHex(d, true)) == BareHex(d, false)
    ensures NormalHex(BareHex(d, false)) == BareHex(d, false)
  {
    BareHexLower(d);
    ToLowerIdempotent(BareHex(d, true));
    ColonHexWithout(d, true);
    ColonHexWithout(d, false);
    WithoutAbsent(BareHex(d, true), ':');
    WithoutFacts(ColonHex(d, false), ':');
    WithoutAbsent(BareHex(d, false), ':');
  }

  lemma ExampleForms()
    ensures ColonHex([0xAB, 0xCD, 0xEF], true) == "AB:CD:EF"
    ensures BareHex([0xAB, 0xCD, 0xEF], false) == "abcdef"
  {
    var d: seq<Octet> := [0xAB, 0xCD, 0xEF];
    assert d[1..] == [0xCD, 0xEF] && d[1..][1..] == [0xEF];
    assert OctetHex(0xAB, true) == "AB" && OctetHex(0xAB, false) == "ab";
    assert OctetHex(0xCD, true) == "CD" && OctetHex(0xCD, false) == "cd";
    assert OctetHex(0xEF, true) == "EF" && OctetHex(0xEF, false) == "ef";
    assert ColonHex([0xEF], true) == "EF";
    assert BareHex([0xEF], false) == "ef";
  }

  /** A colon-separated upper-case digest and its bare lower-case form normalise alike. */
  lemma ColonAndBareExample()
    ensures NormalHex("AB:CD:EF") == NormalHex("abcdef") == "abcdef"
  {
    DigestFormsAgree([0xAB, 0xCD, 0xEF]);
    ExampleForms();
  }
}
