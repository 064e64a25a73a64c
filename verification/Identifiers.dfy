/** Text identities: decimal renderings of integer keys, UUID texts, and the order used to sort them. */
module Identifiers {
  import opened Basics

  // ----- str(int) -----

  function Digit(d: nat): char
    requires d < 10
  {
    ['0', '1', '2', '3', '4', '5', '6', '7', '8', '9'][d]
  }

  function Decimal(n: nat): (text: string)
    ensures text != []
  {
    if n < 10 then [Digit(n)] else Decimal(n / 10) + [Digit(n % 10)]
  }

  function IntText(n: int): string {
    if n < 0 then "-" + Decimal(-n) else Decimal(n)
  }

  lemma DecimalInjective(a: nat, b: nat)
    requires Decimal(a) == Decimal(b)
    ensures a == b
  {
    DecimalExact(a);
    DecimalExact(b);
  }

  /** `str(pk)` never identifies two different rows. */
  lemma IntTextInjective(a: nat, b: nat)
    requires IntText(a) == IntText(b)
    ensures a == b
  {
    DecimalInjective(a, b);
  }

  // ----- str.strip() -----

  predicate IsSpace(c: char) { c in " \t\n\r" || c as int in {11, 12, 28, 29, 30, 31, 133, 160} }

  /** `not value.strip()` */
  predicate Blank(s: string) { forall c :: c in s ==> IsSpace(c) }

  lemma {:induction false} DecimalNotBlank(n: nat)
    ensures !Blank(Decimal(n))
  {
    assert Digit(n % 10) in Decimal(n);
  }

  // ----- uuid.UUID(text) -----

  predicate IsHex(c: char) { '0' <= c <= '9' || 'a' <= c <= 'f' || 'A' <= c <= 'F' }

  function Lower(c: char): char {
    if 'A' <= c <= 'Z' then ((c as int) + 32) as char else c
  }

  function LowerAll(s: string): (r: string)
    ensures |r| == |s| && forall i :: 0 <= i < |s| ==> r[i] == Lower(s[i])
  {
    seq(|s|, i requires 0 <= i < |s| => Lower(s[i]))
  }

  function Remove(s: string, word: string): string
    requires word != []
  {
    if |s| < |word| then s
    else if s[..|word|] == word then Remove(s[|word|..], word)
    else [s[0]] + Remove(s[1..], word)
  }

  function TrimLeft(s: string): string {
    if s != [] && s[0] in "{}" then TrimLeft(s[1..]) else s
  }

  function TrimRight(s: string): string {
    if s != [] && s[|s| - 1] in "{}" then TrimRight(s[..|s| - 1]) else s
  }

  function DropDashes(s: string): string {
    if s == [] then [] else if s[0] == '-' then DropDashes(s[1..]) else [s[0]] + DropDashes(s[1..])
  }

  /** The 32 digits in the 8-4-4-4-12 layout of section 4 of RFC 9562. */
  function Dashed(h: string): string
    requires |h| == 32
  {
    h[..8] + "-" + h[8..12] + "-" + h[12..16] + "-" + h[16..20] + "-" + h[20..]
  }

  /** `str(UUID(text))`, or `None` where the constructor raises. */
  function ParseUuid(text: string): Option<string> {
    var h := DropDashes(TrimRight(TrimLeft(Remove(Remove(text, "urn:"), "uuid:"))));
    if |h| == 32 && forall c :: c in h ==> IsHex(c) then Some(Dashed(LowerAll(h))) else None
  }

  predicate LowerHex(c: char) { '0' <= c <= '9' || 'a' <= c <= 'f' }

  predicate DashAt(i: int) { i == 8 || i == 13 || i == 18 || i == 23 }

  /** A UUID value is represented by its canonical text. */
  predicate IsUuid(u: string) {
    |u| == 36 && forall i :: 0 <= i < 36 ==> if DashAt(i) then u[i] == '-' else LowerHex(u[i])
  }

  /** `UUID(u).version == 4`: the version and variant digits of section 5.4 of RFC 9562. */
  predicate IsUuidV4(u: string) {
    IsUuid(u) && u[14] == '4' && (u[19] == '8' || u[19] == '9' || u[19] == 'a' || u[19] == 'b')
  }

  lemma {:induction false} RemoveAbsent(s: string, word: string)
    requires ':' in word && ':' !in s
    ensures Remove(s, word) == s
  {
    if |s| >= |word| {
      var i :| 0 <= i < |word| && word[i] == ':';
      assert s[..|word|][i] == s[i] && s[i] in s;
      RemoveAbsent(s[1..], word);
      assert s == [s[0]] + s[1..];
    }
  }

  lemma {:induction false} DropDashesAppend(a: string, b: string)
    ensures DropDashes(a + b) == DropDashes(a) + DropDashes(b)
  {
    if a == [] {
      assert a + b == b;
    } else {
      assert (a + b)[1..] == a[1..] + b && (a + b)[0] == a[0];
      DropDashesAppend(a[1..], b);
    }
  }

  lemma {:induction false} DropDashesAbsent(s: string)
    requires '-' !in s
    ensures DropDashes(s) == s
  {
    if s != [] { DropDashesAbsent(s[1..]); assert s == [s[0]] + s[1..]; }
  }

  lemma OneDash()
    ensures DropDashes("-") == ""
  {
    assert "-"[1..] == "";
  }

  lemma DropDashesDashed(h: string)
    requires |h| == 32 && '-' !in h
    ensures DropDashes(Dashed(h)) == h
  {
    hide DropDashes;
    var a, b, c, d, e := h[..8], h[8..12], h[12..16], h[16..20], h[20..];
    assert '-' !in a && '-' !in b && '-' !in c && '-' !in d && '-' !in e;
    DropDashesAbsent(a); DropDashesAbsent(b); DropDashesAbsent(c); DropDashesAbsent(d); DropDashesAbsent(e);
    OneDash();
    DropDashesAppend(a + "-" + b + "-" + c + "-" + d + "-", e);
    DropDashesAppend(a + "-" + b + "-" + c + "-" + d, "-");
    DropDashesAppend(a + "-" + b + "-" + c + "-", d);
    DropDashesAppend(a + "-" + b + "-" + c, "-");
    DropDashesAppend(a + "-" + b + "-", c);
    DropDashesAppend(a + "-" + b, "-");
    DropDashesAppend(a + "-", b);
    DropDashesAppend(a, "-");
    assert h == a + b + c + d + e;
  }

  /** The parser accepts canonical texts as they are. */
  function HexDigits(u: string): string
    requires |u| == 36
  {
    u[..8] + u[9..13] + u[14..18] + u[19..23] + u[24..]
  }

  lemma DashedDigits(u: string)
    requires IsUuid(u)
    ensures |HexDigits(u)| == 32 && Dashed(HexDigits(u)) == u && LowerAll(HexDigits(u)) == HexDigits(u)
    ensures forall c :: c in HexDigits(u) ==> LowerHex(c)
  {
    var h := HexDigits(u);
    var a, b, c, d, e := u[..8], u[9..13], u[14..18], u[19..23], u[24..];
    assert h[..8] == a && h[8..12] == b && h[12..16] == c && h[16..20] == d && h[20..] == e;
    assert u[8] == '-' && u[13] == '-' && u[18] == '-' && u[23] == '-';
    assert u == a + [u[8]] + b + [u[13]] + c + [u[18]] + d + [u[23]] + e;
    assert forall i :: 0 <= i < 32 ==> LowerHex(h[i]) && Lower(h[i]) == h[i];
    assert LowerAll(h) == h;
  }

  lemma CanonicalParses(u: string)
    requires IsUuid(u)
    ensures ParseUuid(u) == Some(u)
  {
    hide DropDashes, Remove, Dashed;
    var h := HexDigits(u);
    DashedDigits(u);
    RemoveAbsent(u, "urn:");
    RemoveAbsent(u, "uuid:");
    assert TrimRight(TrimLeft(u)) == u by { assert LowerHex(u[0]) && LowerHex(u[35]); }
    DropDashesDashed(h);
  }

  /** The parser returns canonical texts only, so `str(UUID(text))` is read back as itself. */
  lemma ParsedIsCanonical(text: string)
    requires ParseUuid(text).Some?
    ensures IsUuid(ParseUuid(text).value)
  {
    var raw := DropDashes(TrimRight(TrimLeft(Remove(Remove(text, "urn:"), "uuid:"))));
    var h := LowerAll(raw);
    forall i | 0 <= i < 32 ensures LowerHex(h[i]) {
      assert raw[i] in raw && h[i] == Lower(raw[i]);
    }
  }

  // ----- text order -----

  /** Python's `<` on strings. */
  predicate Less(a: string, b: string) {
    if b == [] then false
    else if a == [] then true
    else a[0] < b[0] || (a[0] == b[0] && Less(a[1..], b[1..]))
  }

  lemma {:induction false} LessTotal(a: string, b: string)
    ensures Less(a, b) || a == b || Less(b, a)
    ensures !(Less(a, b) && Less(b, a))
    ensures !Less(a, a)
  {
    if a != [] && b != [] {
      LessTotal(a[1..], b[1..]);
      assert a == [a[0]] + a[1..] && b == [b[0]] + b[1..];
      LessTotal(a[1..], a[1..]);
    } else if a != [] {
      LessTotal(a[1..], a[1..]);
    }
  }

  lemma {:induction false} LessTransitive(a: string, b: string, c: string)
    requires Less(a, b) && Less(b, c)
    ensures Less(a, c)
  {
    if a != [] && a[0] == b[0] && b[0] == c[0] { LessTransitive(a[1..], b[1..], c[1..]); }
  }

  /** `a < b` when, after a common prefix, `a` ends or has the smaller character. */
  lemma {:induction false} LessExact(a: string, b: string)
    ensures Less(a, b) <==> exists n :: 0 <= n < |b| && n <= |a| && a[..n] == b[..n] && (n == |a| || a[n] < b[n])
  {
    if a != [] && b != [] && a[0] == b[0] {
      LessExact(a[1..], b[1..]);
      if Less(a[1..], b[1..]) {
        var n :| 0 <= n < |b[1..]| && n <= |a[1..]| && a[1..][..n] == b[1..][..n] && (n == |a[1..]| || a[1..][n] < b[1..][n]);
        assert a[..n + 1] == [a[0]] + a[1..][..n] && b[..n + 1] == [b[0]] + b[1..][..n];
      }
      if n :| 0 <= n < |b| && n <= |a| && a[..n] == b[..n] && (n == |a| || a[n] < b[n]) {
        assert n > 0;
        assert a[1..][..n - 1] == a[..n][1..] && b[1..][..n - 1] == b[..n][1..];
        assert n - 1 == |a[1..]| || a[1..][n - 1] < b[1..][n - 1];
      }
    } else if a == [] && b != [] {
      assert a[..0] == b[..0];
    } else if a != [] && b != [] {
      assert a[..0] == b[..0];
      if n :| 0 <= n < |b| && n <= |a| && a[..n] == b[..n] && (n == |a| || a[n] < b[n]) {
        if n > 0 { assert a[..n][0] == b[..n][0]; }
      }
    }
  }

  // ----- what the texts stand for -----

  function DigitValue(c: char): nat
    requires '0' <= c <= '9'
  {
    (c as int) - ('0' as int)
  }

  predicate Digits(s: string) { forall i :: 0 <= i < |s| ==> '0' <= s[i] <= '9' }

  function ValueOf(s: string): nat
    requires Digits(s)
  {
    if s == [] then 0 else 10 * ValueOf(s[..|s| - 1]) + DigitValue(s[|s| - 1])
  }

  /** The text of a key is its decimal numeral, without a leading zero. */
  lemma {:induction false} DecimalExact(n: nat)
    ensures Digits(Decimal(n)) && ValueOf(Decimal(n)) == n
    ensures Decimal(n)[0] == '0' ==> n == 0
    decreases n
  {
    if n >= 10 {
      DecimalExact(n / 10);
      var s := Decimal(n);
      assert s[..|s| - 1] == Decimal(n / 10) && s[|s| - 1] == Digit(n % 10);
      DigitExact(n % 10);
      assert s[0] == Decimal(n / 10)[0];
    } else {
      DigitExact(n);
      assert Decimal(n)[..0] == "";
    }
  }

  lemma DigitExact(d: nat)
    requires d < 10
    ensures '0' <= Digit(d) <= '9' && DigitValue(Digit(d)) == d
  {
  }

  function HexValue(c: char): nat
    requires LowerHex(c)
  {
    if c <= '9' then (c as int) - ('0' as int) else (c as int) - ('a' as int) + 10
  }

  /** A UUID is of version 4 when its version digit is 4 and the two highest bits of its variant digit are 1 and 0. */
  lemma VersionAndVariant(u: string)
    requires IsUuid(u)
    ensures LowerHex(u[14]) && LowerHex(u[19])
    ensures IsUuidV4(u) <==> HexValue(u[14]) == 4 && HexValue(u[19]) / 4 == 2
  {
  }

  /** Braces around a text, or no dashes in it, make no difference to the parser. */
  lemma DecoratedParses(u: string)
    requires IsUuid(u)
    ensures ParseUuid("{" + u + "}") == Some(u)
    ensures ParseUuid(HexDigits(u)) == Some(u)
  {
    hide DropDashes, Remove, Dashed, LowerAll;
    var h := HexDigits(u);
    DashedDigits(u);
    var braced := "{" + u + "}";
    RemoveAbsent(braced, "urn:");
    RemoveAbsent(braced, "uuid:");
    assert LowerHex(u[0]) && LowerHex(u[35]);
    assert braced[1..] == u + "}";
    assert TrimLeft(u + "}") == u + "}";
    assert TrimLeft(braced) == u + "}";
    assert (u + "}")[..36] == u;
    assert TrimRight(u) == u;
    assert TrimRight(u + "}") == u;
    DropDashesDashed(h);
    assert ':' !in h && '-' !in h;
    RemoveAbsent(h, "urn:");
    RemoveAbsent(h, "uuid:");
    assert LowerHex(h[0]) && LowerHex(h[31]);
    assert TrimRight(TrimLeft(h)) == h;
    DropDashesAbsent(h);
  }

  /** The case of the digits, or a URN prefix (section 4 of RFC 9562), makes no difference either. */
  lemma WrittenOtherwise(u: string, v: string)
    requires IsUuid(u) && LowerAll(v) == u
    ensures ParseUuid(v) == Some(u)
    ensures ParseUuid("urn:uuid:" + v) == Some(u)
  {
    hide DropDashes, Remove, Dashed;
    forall i | 0 <= i < 36 ensures v[i] == '-' || IsHex(v[i]) { assert u[i] == Lower(v[i]); }
    assert ':' !in v;
    var h := HexDigits(v);
    assert Lower(v[8]) == '-' && Lower(v[13]) == '-' && Lower(v[18]) == '-' && Lower(v[23]) == '-';
    DashedText(v);
    assert v[0] !in "{}" && v[35] !in "{}" by { assert Lower(v[0]) == u[0] && Lower(v[35]) == u[35]; }
    assert TrimRight(TrimLeft(v)) == v;
    DashedDigits(u);
    forall c | c in h ensures IsHex(c) && c != '-' {
      var i :| 0 <= i < 32 && h[i] == c;
      assert LowerAll(h)[i] == HexDigits(u)[i] by { assert LowerAll(h) == HexDigits(u) by { LowerDigits(u, v); } }
      assert HexDigits(u)[i] in HexDigits(u) && LowerHex(Lower(c));
    }
    DropDashesDashed(h);
    LowerDigits(u, v);
    RemoveAbsent(v, "urn:");
    RemoveAbsent(v, "uuid:");
    RemoveFirst("urn:", "uuid:" + v);
    assert "urn:uuid:" + v == "urn:" + ("uuid:" + v);
    RemoveFirst("uuid:", v);
    RemoveUrn(v);
  }

  lemma RemoveFirst(word: string, s: string)
    requires word != []
    ensures Remove(word + s, word) == Remove(s, word)
  {
    assert (word + s)[..|word|] == word && (word + s)[|word|..] == s;
  }

  lemma RemoveUrn(v: string)
    requires ':' !in v
    ensures Remove("uuid:" + v, "urn:") == "uuid:" + v
  {
    hide Remove;
    var s := "uuid:" + v;
    assert s[0] == 'u' && s[1] == 'u' && s[2] == 'i' && s[3] == 'd' && s[4] == ':';
    RemoveAbsent(v, "urn:");
    StepOver(s);
    StepOver(s[1..]);
    StepOver(s[2..]);
    StepOver(s[3..]);
    StepOver(s[4..]);
    assert s[1..][1..] == s[2..] && s[2..][1..] == s[3..] && s[3..][1..] == s[4..] && s[4..][1..] == v;
    assert s == ['u'] + ['u'] + ['i'] + ['d'] + [':'] + v;
  }

  lemma StepOver(s: string)
    requires s != [] && (s[0] != 'u' || |s| < 2 || s[1] != 'r')
    ensures Remove(s, "urn:") == [s[0]] + Remove(s[1..], "urn:")
  {
    if |s| >= 4 { assert s[..4][0] == s[0] && s[..4][1] == s[1]; }
  }

  lemma DashedText(v: string)
    requires |v| == 36 && v[8] == '-' && v[13] == '-' && v[18] == '-' && v[23] == '-'
    ensures Dashed(HexDigits(v)) == v
  {
    var h := HexDigits(v);
    var a, b, c, d, e := v[..8], v[9..13], v[14..18], v[19..23], v[24..];
    assert h[..8] == a && h[8..12] == b && h[12..16] == c && h[16..20] == d && h[20..] == e;
    assert v == a + [v[8]] + b + [v[13]] + c + [v[18]] + d + [v[23]] + e;
  }

  lemma LowerDigits(u: string, v: string)
    requires |u| == 36 && LowerAll(v) == u
    ensures LowerAll(HexDigits(v)) == HexDigits(u)
  {
    forall i | 0 <= i < 32 ensures LowerAll(HexDigits(v))[i] == HexDigits(u)[i] {
      var n := if i < 8 then i else if i < 12 then i + 1 else if i < 16 then i + 2 else if i < 20 then i + 3 else i + 4;
      assert HexDigits(v)[i] == v[n] && HexDigits(u)[i] == u[n] && u[n] == Lower(v[n]);
    }
  }
}
