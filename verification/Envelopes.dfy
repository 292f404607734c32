/** Strings that carry identifiers: API keys, refresh tokens and storage keys. */
module Envelopes {
  import opened Collections
  import Words

  // ----- hexadecimal -----

  function Pow16(w: nat): (p: nat)
    ensures p > 0
  {
    if w == 0 then 1 else 16 * Pow16(w - 1)
  }

  predicate IsLowerHex(c: char) {
    '0' <= c <= '9' || 'a' <= c <= 'f'
  }

  predicate IsHex(c: char) {
    IsLowerHex(c) || 'A' <= c <= 'F'
  }

  ghost predicate AllLowerHex(s: string) {
    forall i :: 0 <= i < |s| ==> IsLowerHex(s[i])
  }

  predicate AllHex(s: string) {
    forall i :: 0 <= i < |s| ==> IsHex(s[i])
  }

  function HexChar(d: nat): (c: char)
    requires d < 16
    ensures IsLowerHex(c)
  {
    if d < 10 then '0' + d as char else 'a' + (d - 10) as char
  }

  function HexOf(c: char): (d: nat)
    requires IsHex(c)
    ensures d < 16
    ensures IsLowerHex(c) ==> HexChar(d) == c
  {
    if c <= '9' then (c - '0') as nat
    else if c <= 'F' then (c - 'A') as nat + 10
    else (c - 'a') as nat + 10
  }

  lemma HexCharacters(d: nat)
    requires d < 16
    ensures HexChar(d) == "0123456789abcdef"[d]
    ensures IsHex("0123456789abcdef"[d]) && HexOf("0123456789abcdef"[d]) == d
    ensures IsHex("0123456789ABCDEF"[d]) && HexOf("0123456789ABCDEF"[d]) == d
  {
  }

  function HexDigits(n: nat, w: nat): (s: string)
    ensures |s| == w
  {
    if w == 0 then "" else HexDigits(n / 16, w - 1) + [HexChar(n % 16)]
  }

  function HexValue(s: string): (n: nat)
    requires AllHex(s)
  {
    if s == "" then 0 else 16 * HexValue(s[..|s| - 1]) + HexOf(s[|s| - 1])
  }

  lemma {:induction false} HexDigitsAreHex(n: nat, w: nat)
    ensures AllLowerHex(HexDigits(n, w)) && AllHex(HexDigits(n, w))
  {
    if w > 0 { HexDigitsAreHex(n / 16, w - 1); }
  }

  lemma {:induction false} HexRoundTrip(n: nat, w: nat)
    requires n < Pow16(w)
    ensures AllHex(HexDigits(n, w)) && HexValue(HexDigits(n, w)) == n
  {
    HexDigitsAreHex(n, w);
    if w > 0 {
      HexRoundTrip(n / 16, w - 1);
      assert HexDigits(n, w)[..w - 1] == HexDigits(n / 16, w - 1);
    }
  }

  lemma {:induction false} HexValueFits(s: string)
    requires AllHex(s)
    ensures HexValue(s) < Pow16(|s|)
  {
    if s != "" { HexValueFits(s[..|s| - 1]); }
  }

  lemma LastHexDigit(v: nat, d: nat, w: nat)
    requires d < 16
    ensures HexDigits(16 * v + d, w + 1) == HexDigits(v, w) + [HexChar(d)]
  {
    assert (16 * v + d) / 16 == v && (16 * v + d) % 16 == d;
  }

  lemma {:induction false} HexTextRoundTrip(s: string)
    requires AllHex(s) && AllLowerHex(s)
    ensures HexDigits(HexValue(s), |s|) == s
  {
    if s != "" {
      var front, last := s[..|s| - 1], s[|s| - 1];
      HexTextRoundTrip(front);
      LastHexDigit(HexValue(front), HexOf(last), |front|);
      assert s == front + [last];
    }
  }

  // ----- UUIDs -----

  predicate IsUuid(n: nat) {
    n < Pow16(32)
  }

  /** The canonical text form of RFC 9562, section 4. */
  function UuidText(n: nat): (s: string)
    ensures |s| == 36
  {
    Hyphenated(HexDigits(n, 32))
  }

  function Hyphenated(h: string): string
    requires |h| == 32
  {
    h[..8] + "-" + h[8..12] + "-" + h[12..16] + "-" + h[16..20] + "-" + h[20..]
  }

  function WithoutHyphens(s: string): string {
    if s == "" then "" else (if s[0] == '-' then "" else [s[0]]) + WithoutHyphens(s[1..])
  }

  function StartsWith(s: string, prefix: string): bool {
    |prefix| <= |s| && s[..|prefix|] == prefix
  }

  /** Every occurrence of `part`, found from the left, is dropped. */
  function Without(s: string, part: string): string
    requires part != ""
    decreases |s|
  {
    if s == "" then ""
    else if StartsWith(s, part) then Without(s[|part|..], part)
    else [s[0]] + Without(s[1..], part)
  }

  predicate IsBrace(c: char) {
    c == '{' || c == '}'
  }

  function StripLeft(s: string): string {
    if s != "" && IsBrace(s[0]) then StripLeft(s[1..]) else s
  }

  function StripRight(s: string): string {
    if s != "" && IsBrace(s[|s| - 1]) then StripRight(s[..|s| - 1]) else s
  }

  /** Digits of an integer literal: single underscores may stand between them. */
  predicate IsHexLiteral(s: string) {
    && s != "" && IsHex(s[0]) && IsHex(s[|s| - 1])
    && forall i :: 0 <= i < |s| ==> IsHexLiteralAt(s, i)
  }

  predicate IsHexLiteralAt(s: string, i: nat)
    requires i < |s|
  {
    IsHex(s[i]) || (s[i] == '_' && 0 < i && s[i - 1] != '_')
  }

  /** An integer in base 16 as the language reads it: surrounding space, a plus sign, and a
      `0x` prefix that one underscore may follow.  No minus sign is left at this point. */
  function HexInteger(s: string): Option<nat> {
    var trimmed := Words.Trim(s);
    var unsigned := if StartsWith(trimmed, "+") then trimmed[1..] else trimmed;
    var digits := if !StartsWith(unsigned, "0x") && !StartsWith(unsigned, "0X") then unsigned
                  else if StartsWith(unsigned[2..], "_") then unsigned[3..]
                  else unsigned[2..];
    if IsHexLiteral(digits) then
      var plain := Without(digits, "_");
      if AllHex(plain) then Some(HexValue(plain)) else None
    else None
  }

  /** What stands between the accepted spellings: `urn:` and `uuid:` anywhere, braces at both
      ends, hyphens anywhere. */
  function Undecorated(s: string): string {
    WithoutHyphens(StripRight(StripLeft(Without(Without(s, "urn:"), "uuid:"))))
  }

  /** Then there must be 32 characters that read as an integer in base 16. */
  function ParseUuid(s: string): Option<nat> {
    var h := Undecorated(s);
    if |h| == 32 then HexInteger(h) else None
  }

  lemma {:induction false} WithoutHyphensConcat(a: string, b: string)
    ensures WithoutHyphens(a + b) == WithoutHyphens(a) + WithoutHyphens(b)
  {
    if a == "" {
      assert a + b == b;
    } else {
      assert (a + b)[1..] == a[1..] + b;
      WithoutHyphensConcat(a[1..], b);
    }
  }

  lemma {:induction false} NoHyphens(s: string)
    requires AllHex(s)
    ensures WithoutHyphens(s) == s
  {
    if s != "" { NoHyphens(s[1..]); }
  }

  lemma {:induction false} OneHyphen(a: string, b: string)
    requires AllHex(a)
    ensures WithoutHyphens(a + "-" + b) == a + WithoutHyphens(b)
  {
    if a == "" {
      assert (a + "-" + b)[1..] == b;
    } else {
      assert (a + "-" + b)[1..] == a[1..] + "-" + b;
      OneHyphen(a[1..], b);
    }
  }

  lemma HyphenatedIsHidden(h: string)
    requires |h| == 32 && AllHex(h)
    ensures WithoutHyphens(Hyphenated(h)) == h
  {
    var a, b, c, d, e := h[..8], h[8..12], h[12..16], h[16..20], h[20..];
    assert Hyphenated(h) == a + "-" + (b + "-" + (c + "-" + (d + "-" + e)));
    OneHyphen(a, b + "-" + (c + "-" + (d + "-" + e)));
    OneHyphen(b, c + "-" + (d + "-" + e));
    OneHyphen(c, d + "-" + e);
    OneHyphen(d, e);
    NoHyphens(e);
    assert a + (b + (c + (d + e))) == h;
  }

  lemma {:induction false} NothingToDrop(s: string, part: string)
    requires part != "" && part[0] !in s
    ensures Without(s, part) == s
  {
    if s != "" { NothingToDrop(s[1..], part); }
  }

  lemma CanonicalCharacters(n: nat)
    ensures forall i :: 0 <= i < 36 ==> IsLowerHex(UuidText(n)[i]) || UuidText(n)[i] == '-'
  {
    HexDigitsAreHex(n, 32);
  }

  lemma CanonicalIsUndecorated(n: nat)
    ensures Undecorated(UuidText(n)) == HexDigits(n, 32)
  {
    NoPrefixToDrop(n);
    NoBraceToStrip(n);
    HexDigitsAreHex(n, 32);
    HyphenatedIsHidden(HexDigits(n, 32));
  }

  lemma NoPrefixToDrop(n: nat)
    ensures Without(Without(UuidText(n), "urn:"), "uuid:") == UuidText(n)
  {
    CanonicalCharacters(n);
    NothingToDrop(UuidText(n), "urn:");
    NothingToDrop(UuidText(n), "uuid:");
  }

  lemma NoBraceToStrip(n: nat)
    ensures StripRight(StripLeft(UuidText(n))) == UuidText(n)
  {
    CanonicalCharacters(n);
    assert !IsBrace(UuidText(n)[0]) && !IsBrace(UuidText(n)[35]);
  }

  lemma StartsWithAt(s: string, prefix: string, i: nat)
    requires StartsWith(s, prefix) && i < |prefix|
    ensures i < |s| && s[i] == prefix[i]
  {
    assert s[..|prefix|][i] == s[i];
  }

  lemma NoIntegerPrefix(h: string)
    requires AllLowerHex(h)
    ensures !StartsWith(h, "+") && !StartsWith(h, "0x") && !StartsWith(h, "0X")
  {
    if StartsWith(h, "+") { StartsWithAt(h, "+", 0); }
    if StartsWith(h, "0x") { StartsWithAt(h, "0x", 1); }
    if StartsWith(h, "0X") { StartsWithAt(h, "0X", 1); }
  }

  lemma PlainHexInteger(h: string)
    requires h != "" && AllLowerHex(h) && AllHex(h)
    ensures HexInteger(h) == Some(HexValue(h))
  {
    assert !Words.IsSpace(h[0]) && !Words.IsSpace(h[|h| - 1]);
    NothingToDrop(h, "_");
    NoIntegerPrefix(h);
  }

  /** Printing and reading a UUID. */
  lemma UuidRoundTrip(n: nat)
    requires IsUuid(n)
    ensures ParseUuid(UuidText(n)) == Some(n)
  {
    HexDigitsAreHex(n, 32);
    CanonicalIsUndecorated(n);
    PlainHexInteger(HexDigits(n, 32));
    HexRoundTrip(n, 32);
  }

  // ----- every spelling that is read -----

  /** Space, an optional sign, an optional prefix, the digits, space. */
  ghost predicate Spells(s: string, before: string, sign: string, prefix: string, digits: string, after: string) {
    && s == before + (sign + (prefix + digits)) + after
    && Words.AllSpaces(before) && Words.AllSpaces(after)
    && (sign == "" || sign == "+")
    && (prefix == "" || prefix == "0x" || prefix == "0X" || prefix == "0x_" || prefix == "0X_")
    && IsHexLiteral(digits)
  }

  lemma {:induction false} DigitsAreHex(s: string)
    requires forall i :: 0 <= i < |s| ==> IsHex(s[i]) || s[i] == '_'
    ensures AllHex(Without(s, "_"))
  {
    if s != "" {
      DigitsAreHex(s[1..]);
      assert s[0] == '_' ==> s[..1] == "_";
    }
  }

  lemma LiteralDigitsAreHex(digits: string)
    requires IsHexLiteral(digits)
    ensures AllHex(Without(digits, "_"))
  {
    forall i | 0 <= i < |digits| ensures IsHex(digits[i]) || digits[i] == '_' {
      assert IsHexLiteralAt(digits, i);
    }
    DigitsAreHex(digits);
  }

  /** What the digits without their underscores are worth. */
  function LiteralValue(digits: string): nat
    requires IsHexLiteral(digits)
  {
    LiteralDigitsAreHex(digits);
    HexValue(Without(digits, "_"))
  }

  function Unsigned(s: string): string {
    if StartsWith(s, "+") then s[1..] else s
  }

  function Unprefixed(s: string): string {
    if !StartsWith(s, "0x") && !StartsWith(s, "0X") then s
    else if StartsWith(s[2..], "_") then s[3..]
    else s[2..]
  }

  lemma HexIntegerParts(s: string)
    ensures HexInteger(s) == var digits := Unprefixed(Unsigned(Words.Trim(s)));
                             if IsHexLiteral(digits) then Some(LiteralValue(digits)) else None
  {
    var digits := Unprefixed(Unsigned(Words.Trim(s)));
    if IsHexLiteral(digits) { LiteralDigitsAreHex(digits); }
  }

  lemma UnsignedOf(sign: string, rest: string)
    requires (sign == "" || sign == "+") && rest != "" && rest[0] != '+'
    ensures Unsigned(sign + rest) == rest
  {
    if sign == "" {
      assert sign + rest == rest;
      if StartsWith(rest, "+") { StartsWithAt(rest, "+", 0); }
    } else {
      assert (sign + rest)[..1] == "+";
    }
  }

  lemma UnprefixedOf(prefix: string, digits: string)
    requires prefix == "" || prefix == "0x" || prefix == "0X" || prefix == "0x_" || prefix == "0X_"
    requires IsHexLiteral(digits)
    ensures Unprefixed(prefix + digits) == digits
  {
    var s := prefix + digits;
    if prefix == "" {
      assert s == digits;
      assert |digits| >= 2 ==> IsHexLiteralAt(digits, 1);
      if StartsWith(s, "0x") { StartsWithAt(s, "0x", 1); }
      if StartsWith(s, "0X") { StartsWithAt(s, "0X", 1); }
    } else {
      assert s[..2] == prefix[..2];
      if |prefix| == 2 {
        assert s[2..] == digits;
        if StartsWith(digits, "_") { StartsWithAt(digits, "_", 0); }
      } else {
        assert s[2..][..1] == "_" && s[3..] == digits;
      }
    }
  }

  lemma SpelledIsRead(s: string, before: string, sign: string, prefix: string, digits: string, after: string)
    requires Spells(s, before, sign, prefix, digits, after)
    ensures HexInteger(s) == Some(LiteralValue(digits))
  {
    var core := sign + (prefix + digits);
    assert core[|core| - 1] == digits[|digits| - 1];
    Words.TrimIs(before, core, after);
    UnsignedOf(sign, prefix + digits);
    UnprefixedOf(prefix, digits);
    HexIntegerParts(s);
  }

  lemma SignOf(s: string) returns (sign: string)
    ensures s == sign + Unsigned(s) && (sign == "" || sign == "+")
  {
    sign := if StartsWith(s, "+") then "+" else "";
  }

  lemma PrefixOf(s: string) returns (prefix: string)
    ensures s == prefix + Unprefixed(s)
    ensures prefix == "" || prefix == "0x" || prefix == "0X" || prefix == "0x_" || prefix == "0X_"
  {
    if !StartsWith(s, "0x") && !StartsWith(s, "0X") {
      prefix := "";
    } else {
      prefix := s[..2];
      assert s == s[..2] + s[2..];
      if StartsWith(s[2..], "_") {
        prefix := prefix + "_";
        assert s[2..] == "_" + s[3..];
      }
    }
  }

  /** A text is read as an integer in base 16 exactly when it has this form. */
  lemma HexIntegerExactly(s: string, v: nat)
    ensures HexInteger(s) == Some(v) <==>
              exists before, sign, prefix, digits, after ::
                Spells(s, before, sign, prefix, digits, after) && LiteralValue(digits) == v
  {
    if HexInteger(s) == Some(v) {
      HexIntegerParts(s);
      var before, after := Words.TrimParts(s);
      var sign := SignOf(Words.Trim(s));
      var prefix := PrefixOf(Unsigned(Words.Trim(s)));
      assert Spells(s, before, sign, prefix, Unprefixed(Unsigned(Words.Trim(s))), after);
    }
    if before, sign, prefix, digits, after :| Spells(s, before, sign, prefix, digits, after) && LiteralValue(digits) == v {
      SpelledIsRead(s, before, sign, prefix, digits, after);
    }
  }

  lemma DropsPart(part: string, rest: string)
    requires part != ""
    ensures Without(part + rest, part) == Without(rest, part)
  {
    assert (part + rest)[..|part|] == part && (part + rest)[|part|..] == rest;
  }

  /** Where the first two characters never follow each other, nothing is dropped. */
  lemma {:induction false} NeverOccurs(s: string, part: string)
    requires |part| >= 2
    requires forall i :: 0 <= i < |s| - 1 ==> s[i] != part[0] || s[i + 1] != part[1]
    ensures Without(s, part) == s
    decreases |s|
  {
    if s != "" {
      if StartsWith(s, part) {
        StartsWithAt(s, part, 0);
        StartsWithAt(s, part, 1);
      }
      NeverOccurs(s[1..], part);
    }
  }

  lemma NamespaceDropped(t: string)
    requires 'u' !in t
    ensures Without(Without("urn:uuid:" + t, "urn:"), "uuid:") == t
  {
    assert "urn:uuid:" + t == "urn:" + ("uuid:" + t);
    DropsPart("urn:", "uuid:" + t);
    NeverOccurs("uuid:" + t, "urn:");
    DropsPart("uuid:", t);
    NothingToDrop(t, "uuid:");
  }

  lemma PlainDropsNothing(t: string)
    requires 'u' !in t
    ensures Without(Without(t, "urn:"), "uuid:") == t
  {
    NothingToDrop(t, "urn:");
    NothingToDrop(t, "uuid:");
  }

  lemma BracesStripped(t: string)
    requires t != "" && !IsBrace(t[0]) && !IsBrace(t[|t| - 1])
    ensures StripRight(StripLeft(t)) == t && StripRight(StripLeft("{" + t + "}")) == t
  {
    assert "{" + t + "}" == "{" + (t + "}");
    assert ("{" + (t + "}"))[1..] == t + "}" && (t + "}")[..|t|] == t;
  }

  lemma UndecoratedOf(h: string, s: string, t: string)
    requires |h| == 32 && AllHex(h)
    requires Without(Without(s, "urn:"), "uuid:") == t && StripRight(StripLeft(t)) == Hyphenated(h)
    ensures Undecorated(s) == h
  {
    HyphenatedIsHidden(h);
  }

  lemma PlainUndecorated(h: string)
    requires |h| == 32 && AllHex(h)
    ensures Undecorated(h) == h
  {
    PlainDropsNothing(h);
    BracesStripped(h);
    NoHyphens(h);
  }

  lemma DigitsAreRead(h: string)
    requires h != "" && AllHex(h)
    ensures HexInteger(h) == Some(HexValue(h))
  {
    assert "" + ("" + ("" + h)) + "" == h;
    NothingToDrop(h, "_");
    assert Spells(h, "", "", "", h, "");
    SpelledIsRead(h, "", "", "", h, "");
  }

  lemma HyphenatedCharacters(h: string)
    requires |h| == 32 && AllHex(h)
    ensures var t := Hyphenated(h);
            'u' !in t && t != "" && !IsBrace(t[0]) && !IsBrace(t[|t| - 1])
  {
  }

  /** A UUID is read, in upper and in lower case, from its 32 digits with and without hyphens,
      in braces, and as a URN. */
  lemma SpellingsAreRead(h: string)
    requires |h| == 32 && AllHex(h)
    ensures ParseUuid(h) == Some(HexValue(h))
    ensures ParseUuid(Hyphenated(h)) == Some(HexValue(h))
    ensures ParseUuid("{" + Hyphenated(h) + "}") == Some(HexValue(h))
    ensures ParseUuid("urn:uuid:" + Hyphenated(h)) == Some(HexValue(h))
  {
    var t := Hyphenated(h);
    HyphenatedCharacters(h);
    DigitsAreRead(h);
    BracesStripped(t);
    PlainUndecorated(h);
    PlainDropsNothing(t);
    UndecoratedOf(h, t, t);
    PlainDropsNothing("{" + t + "}");
    UndecoratedOf(h, "{" + t + "}", "{" + t + "}");
    NamespaceDropped(t);
    UndecoratedOf(h, "urn:uuid:" + t, t);
  }

  // ----- splitting -----

  /** The position of the first separator, or the length. */
  function IndexOf(s: string, sep: char): (i: nat)
    ensures i <= |s| && sep !in s[..i]
    ensures i < |s| ==> s[i] == sep
  {
    if s == "" || s[0] == sep then 0
    else
      assert forall k :: 0 < k <= |s| ==> s[..k] == [s[0]] + s[1..][..k - 1];
      1 + IndexOf(s[1..], sep)
  }

  lemma {:induction false} FirstSeparator(a: string, b: string, sep: char)
    requires sep !in a
    ensures IndexOf(a + [sep] + b, sep) == |a|
  {
    if a != "" {
      assert (a + [sep] + b)[1..] == a[1..] + [sep] + b;
      FirstSeparator(a[1..], b, sep);
    }
  }

  /** Split at the first `n` separators. */
  function SplitAtMost(s: string, sep: char, n: nat): (parts: seq<string>)
    ensures 1 <= |parts| <= n + 1
    decreases n
  {
    var i := IndexOf(s, sep);
    if n == 0 || i == |s| then [s] else [s[..i]] + SplitAtMost(s[i + 1..], sep, n - 1)
  }

  lemma SplitOff(a: string, b: string, sep: char, n: nat)
    requires sep !in a && n > 0
    ensures SplitAtMost(a + [sep] + b, sep, n) == [a] + SplitAtMost(b, sep, n - 1)
  {
    FirstSeparator(a, b, sep);
    assert (a + [sep] + b)[..|a|] == a && (a + [sep] + b)[|a| + 1..] == b;
  }

  // ----- API keys -----

  function KeyEnvelope(head: string, org: string, prefix: string, secret: string): string {
    head + ['_'] + (org + ['_'] + (prefix + ['_'] + secret))
  }

  function ApiKey(org: nat, prefix: string, secret: string): string {
    KeyEnvelope("atk", UuidText(org), prefix, secret)
  }

  /** The organisation and prefix that a presented key names. */
  function ExtractOrgAndPrefix(raw: string): Option<(nat, string)> {
    var parts := SplitAtMost(raw, '_', 3);
    if |parts| != 4 || parts[0] != "atk" then None
    else
      match ParseUuid(parts[1])
      case None => None
      case Some(org) => Some((org, parts[2]))
  }

  lemma SplitOffOnto(a: string, b: string, sep: char, n: nat, parts: seq<string>)
    requires sep !in a && n > 0 && SplitAtMost(b, sep, n - 1) == parts
    ensures SplitAtMost(a + [sep] + b, sep, n) == [a] + parts
  {
    SplitOff(a, b, sep, n);
  }

  lemma EnvelopeParts(head: string, org: string, prefix: string, secret: string)
    requires '_' !in head && '_' !in org && '_' !in prefix
    ensures SplitAtMost(KeyEnvelope(head, org, prefix, secret), '_', 3) == [head] + ([org] + ([prefix] + [secret]))
  {
    var tail := prefix + ['_'] + secret;
    SplitOffOnto(prefix, secret, '_', 1, [secret]);
    SplitOffOnto(org, tail, '_', 2, [prefix] + [secret]);
    SplitOffOnto(head, org + ['_'] + tail, '_', 3, [org] + ([prefix] + [secret]));
  }

  lemma NoUnderscore(org: nat)
    ensures '_' !in UuidText(org)
  {
    HexDigitsAreHex(org, 32);
  }

  lemma EnvelopeUnderstood(text: string, org: nat, prefix: string, secret: string)
    requires '_' !in text && '_' !in prefix && ParseUuid(text) == Some(org)
    ensures ExtractOrgAndPrefix(KeyEnvelope("atk", text, prefix, secret)) == Some((org, prefix))
  {
    EnvelopeParts("atk", text, prefix, secret);
  }

  /** A generated key names its organisation and prefix, whatever characters the secret has:
      base64url secrets may contain the separator itself. */
  lemma ApiKeyRoundTrip(org: nat, prefix: string, secret: string)
    requires IsUuid(org) && AllLowerHex(prefix)
    ensures ExtractOrgAndPrefix(ApiKey(org, prefix, secret)) == Some((org, prefix))
  {
    NoUnderscore(org);
    UuidRoundTrip(org);
    EnvelopeUnderstood(UuidText(org), org, prefix, secret);
  }

  lemma FirstPart(s: string, sep: char, n: nat) returns (rest: string)
    requires n > 0 && |SplitAtMost(s, sep, n)| > 1
    ensures var parts := SplitAtMost(s, sep, n);
            sep !in parts[0] && s == parts[0] + [sep] + rest && parts[1..] == SplitAtMost(rest, sep, n - 1)
  {
    var i := IndexOf(s, sep);
    rest := s[i + 1..];
    assert s == s[..i] + [sep] + rest;
  }

  lemma ThreeSeparators(raw: string)
    requires |SplitAtMost(raw, '_', 3)| == 4
    ensures var parts := SplitAtMost(raw, '_', 3);
            && raw == KeyEnvelope(parts[0], parts[1], parts[2], parts[3])
            && '_' !in parts[0] && '_' !in parts[1] && '_' !in parts[2]
  {
    var rest := FirstPart(raw, '_', 3);
    var rest' := FirstPart(rest, '_', 2);
    var rest'' := FirstPart(rest', '_', 1);
    assert SplitAtMost(rest'', '_', 0) == [rest''];
  }

  /** A presented key is understood exactly when it has this form. */
  lemma UnderstoodExactlyWhen(raw: string, org: nat, prefix: string)
    ensures ExtractOrgAndPrefix(raw) == Some((org, prefix)) <==>
              exists text: string, secret: string ::
                '_' !in text && '_' !in prefix && ParseUuid(text) == Some(org)
                && raw == KeyEnvelope("atk", text, prefix, secret)
  {
    if ExtractOrgAndPrefix(raw) == Some((org, prefix)) {
      ThreeSeparators(raw);
    }
    if text: string, secret: string :| '_' !in text && '_' !in prefix && ParseUuid(text) == Some(org)
                                        && raw == KeyEnvelope("atk", text, prefix, secret) {
      EnvelopeUnderstood(text, org, prefix, secret);
    }
  }

  // ----- refresh tokens -----

  function RawToken(org: nat, secret: string): string {
    UuidText(org) + ['.'] + secret
  }

  /** The text before the first dot names the organisation, if something follows the dot. */
  function OrganisationHint(raw: string): Option<nat> {
    var i := IndexOf(raw, '.');
    if i == |raw| || i + 1 == |raw| then None else ParseUuid(raw[..i])
  }

  lemma HintRoundTrip(org: nat, secret: string)
    requires IsUuid(org)
    ensures OrganisationHint(RawToken(org, secret)) == if secret == "" then None else Some(org)
  {
    HexDigitsAreHex(org, 32);
    FirstSeparator(UuidText(org), secret, '.');
    UuidRoundTrip(org);
    assert RawToken(org, secret)[..36] == UuidText(org);
  }

  lemma HintOf(text: string, secret: string)
    requires '.' !in text && secret != ""
    ensures OrganisationHint(text + ['.'] + secret) == ParseUuid(text)
  {
    FirstSeparator(text, secret, '.');
    assert (text + ['.'] + secret)[..|text|] == text;
  }

  /** A token names an organisation exactly when a UUID stands before its first dot and
      something after it. */
  lemma HintExactlyWhen(raw: string, org: nat)
    ensures OrganisationHint(raw) == Some(org) <==>
              exists text: string, secret: string ::
                '.' !in text && secret != "" && ParseUuid(text) == Some(org) && raw == text + ['.'] + secret
  {
    var i := IndexOf(raw, '.');
    if i + 1 < |raw| {
      assert raw == raw[..i] + ['.'] + raw[i + 1..];
    }
    if text: string, secret: string :| '.' !in text && secret != "" && ParseUuid(text) == Some(org) && raw == text + ['.'] + secret {
      HintOf(text, secret);
    }
  }

  // ----- storage keys -----

  function GenerateKey(org: nat, workspace: nat, document: nat, version: nat): (key: string)
    ensures |key| == 147
  {
    UuidText(org) + "/" + UuidText(workspace) + "/" + UuidText(document) + "/" + UuidText(version)
  }

  predicate IsUuidText(s: string) {
    |s| == 36 && forall i :: 0 <= i < 36 ==> if i == 8 || i == 13 || i == 18 || i == 23 then s[i] == '-' else IsLowerHex(s[i])
  }

  /** The pattern, where `$` also matches before one final newline. */
  predicate ValidateKey(key: string) {
    && (|key| == 147 || (|key| == 148 && key[147] == '\n'))
    && IsUuidText(key[..36]) && key[36] == '/'
    && IsUuidText(key[37..73]) && key[73] == '/'
    && IsUuidText(key[74..110]) && key[110] == '/'
    && IsUuidText(key[111..147])
  }

  lemma PrintedUuidMatches(n: nat)
    ensures IsUuidText(UuidText(n))
  {
    HexDigitsAreHex(n, 32);
  }

  function Dehyphenated(s: string): (h: string)
    requires |s| == 36
    ensures |h| == 32
  {
    s[..8] + s[9..13] + s[14..18] + s[19..23] + s[24..]
  }

  lemma DehyphenatedIsHex(s: string)
    requires IsUuidText(s)
    ensures AllLowerHex(Dehyphenated(s)) && AllHex(Dehyphenated(s))
  {
  }

  lemma HyphensBack(s: string)
    requires IsUuidText(s)
    ensures Hyphenated(Dehyphenated(s)) == s
  {
    var h := Dehyphenated(s);
    assert h[..8] == s[..8] && h[8..12] == s[9..13] && h[12..16] == s[14..18] && h[16..20] == s[19..23] && h[20..] == s[24..];
    assert s == s[..8] + "-" + s[9..13] + "-" + s[14..18] + "-" + s[19..23] + "-" + s[24..];
  }

  lemma MatchingTextIsPrinted(s: string) returns (n: nat)
    requires IsUuidText(s)
    ensures IsUuid(n) && s == UuidText(n)
  {
    var h := Dehyphenated(s);
    DehyphenatedIsHex(s);
    n := HexValue(h);
    HexValueFits(h);
    HexTextRoundTrip(h);
    HyphensBack(s);
  }

  /** The keys that pass validation are the generated ones, and those with a newline added. */
  lemma ValidExactlyWhenGenerated(key: string)
    ensures ValidateKey(key) <==>
              exists o, w, d, v :: IsUuid(o) && IsUuid(w) && IsUuid(d) && IsUuid(v)
                && (key == GenerateKey(o, w, d, v) || key == GenerateKey(o, w, d, v) + "\n")
  {
    if ValidateKey(key) {
      var o := MatchingTextIsPrinted(key[..36]);
      var w := MatchingTextIsPrinted(key[37..73]);
      var d := MatchingTextIsPrinted(key[74..110]);
      var v := MatchingTextIsPrinted(key[111..147]);
      assert key[..147] == GenerateKey(o, w, d, v);
      assert key == key[..147] || key == key[..147] + "\n";
    }
    if o, w, d, v :| IsUuid(o) && IsUuid(w) && IsUuid(d) && IsUuid(v)
                     && (key == GenerateKey(o, w, d, v) || key == GenerateKey(o, w, d, v) + "\n") {
      GeneratedIsValid(key, o, w, d, v);
    }
  }

  lemma GeneratedIsValid(key: string, o: nat, w: nat, d: nat, v: nat)
    requires key == GenerateKey(o, w, d, v) || key == GenerateKey(o, w, d, v) + "\n"
    ensures ValidateKey(key)
  {
    KeyParts(key, o, w, d, v);
    PrintedUuidMatches(o);
    PrintedUuidMatches(w);
    PrintedUuidMatches(d);
    PrintedUuidMatches(v);
  }

  lemma KeyParts(key: string, o: nat, w: nat, d: nat, v: nat)
    requires key == GenerateKey(o, w, d, v) || key == GenerateKey(o, w, d, v) + "\n"
    ensures key[..36] == UuidText(o) && key[37..73] == UuidText(w)
            && key[74..110] == UuidText(d) && key[111..147] == UuidText(v)
            && key[36] == key[73] == key[110] == '/'
  {
  }

  /** No two versions share a storage key. */
  lemma KeysAreInjective(o: nat, w: nat, d: nat, v: nat, o': nat, w': nat, d': nat, v': nat)
    requires IsUuid(o) && IsUuid(w) && IsUuid(d) && IsUuid(v) && IsUuid(o') && IsUuid(w') && IsUuid(d') && IsUuid(v')
    requires GenerateKey(o, w, d, v) == GenerateKey(o', w', d', v')
    ensures o == o' && w == w' && d == d' && v == v'
  {
    var key := GenerateKey(o, w, d, v);
    KeyParts(key, o, w, d, v);
    KeyParts(key, o', w', d', v');
    UuidRoundTrip(o); UuidRoundTrip(w); UuidRoundTrip(d); UuidRoundTrip(v);
    UuidRoundTrip(o'); UuidRoundTrip(w'); UuidRoundTrip(d'); UuidRoundTrip(v');
  }
}
