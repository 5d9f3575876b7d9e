/** The JavaScript string operations the app relies on, over `seq<char>`
    (one `char` per Unicode scalar value). */
module Strings {
  import opened Common

  /** The characters JavaScript's `\s` and `String.prototype.trim` treat as
      white space: the WhiteSpace and LineTerminator code points. */
  predicate IsSpace(c: char) {
    c == '\t' || c == '\n' || c == '\U{000B}' || c == '\U{000C}' || c == '\r' ||
    c == ' ' || c == '\U{00A0}' || c == '\U{1680}' || ('\U{2000}' <= c <= '\U{200A}') ||
    c == '\U{2028}' || c == '\U{2029}' || c == '\U{202F}' || c == '\U{205F}' ||
    c == '\U{3000}' || c == '\U{FEFF}'
  }

  /** Every character is white space (the empty string included). */
  predicate IsBlank(s: string) {
    forall i :: 0 <= i < |s| ==> IsSpace(s[i])
  }

  function TrimStart(s: string): (r: string)
    ensures |r| <= |s| && r == s[|s| - |r|..]
    ensures r == [] || !IsSpace(r[0])
    ensures forall i :: 0 <= i < |s| - |r| ==> IsSpace(s[i])
  {
    if s == [] || !IsSpace(s[0]) then s else TrimStart(s[1..])
  }

  function TrimEnd(s: string): (r: string)
    ensures |r| <= |s| && r == s[..|r|]
    ensures r == [] || !IsSpace(r[|r| - 1])
    ensures forall i :: |r| <= i < |s| ==> IsSpace(s[i])
  {
    if s == [] || !IsSpace(s[|s| - 1]) then s else TrimEnd(s[..|s| - 1])
  }

  /** `s.trim()`. */
  function Trim(s: string): string {
    TrimEnd(TrimStart(s))
  }

  /** `s.trim()` is falsy exactly when `s` is blank. */
  lemma TrimEmptyIffBlank(s: string)
    ensures Trim(s) == [] <==> IsBlank(s)
  {
    var t := TrimStart(s);
    if TrimEnd(t) == [] {
      assert t == [];
    } else if IsBlank(s) {
      TrimStartOfBlank(s);
    }
  }

  lemma {:induction false} TrimStartOfBlank(s: string)
    requires IsBlank(s)
    ensures TrimStart(s) == []
  {
    if s != [] {
      assert IsSpace(s[0]);
      assert IsBlank(s[1..]) by {
        forall i | 0 <= i < |s[1..]| ensures IsSpace(s[1..][i]) {
          assert s[1..][i] == s[i + 1];
        }
      }
      TrimStartOfBlank(s[1..]);
    }
  }

  /** The trimmed string neither starts nor ends with white space. */
  lemma TrimHasNoOuterSpace(s: string)
    ensures Trim(s) == [] || (!IsSpace(Trim(s)[0]) && !IsSpace(Trim(s)[|Trim(s)| - 1]))
  {
    var t := TrimStart(s);
    var r := TrimEnd(t);
    if r != [] {
      assert r[0] == t[0];
    }
  }

  predicate NotSpace(c: char) { !IsSpace(c) }

  /** `s.replace(/\s/g, "")`. */
  function RemoveSpaces(s: string): (r: string)
    ensures forall i :: 0 <= i < |r| ==> !IsSpace(r[i])
    ensures forall c :: c in r <==> c in s && !IsSpace(c)
  {
    var r := Filter(s, NotSpace);
    assert forall i :: 0 <= i < |r| ==> r[i] in r;
    r
  }

  /** Whitespace is removed character by character, keeping the order of
      the rest: on a concatenation it is the concatenation of the two, ... */
  lemma RemoveSpacesConcat(a: string, b: string)
    ensures RemoveSpaces(a + b) == RemoveSpaces(a) + RemoveSpaces(b)
  {
    FilterConcat(a, b, NotSpace);
  }

  /** ... and a single character is dropped exactly when it is whitespace. */
  lemma RemoveSpacesSingle(c: char)
    ensures RemoveSpaces([c]) == if IsSpace(c) then [] else [c]
  {
    assert [c][1..] == [];
  }

  predicate IsDigit(c: char) { '0' <= c <= '9' }

  /** `s.replace(/[^\d]/g, "")`: JavaScript's `\d` is the ASCII digits only. */
  function KeepDigits(s: string): (r: string)
    ensures forall i :: 0 <= i < |r| ==> IsDigit(r[i])
    ensures forall c :: c in r <==> c in s && IsDigit(c)
  {
    var r := Filter(s, IsDigit);
    assert forall i :: 0 <= i < |r| ==> r[i] in r;
    r
  }

  /** Digits are kept in order, character by character: on a concatenation
      the result is the concatenation of the two, ... */
  lemma KeepDigitsConcat(a: string, b: string)
    ensures KeepDigits(a + b) == KeepDigits(a) + KeepDigits(b)
  {
    FilterConcat(a, b, IsDigit);
  }

  /** ... and a single character is kept exactly when it is a digit. */
  lemma KeepDigitsSingle(c: char)
    ensures KeepDigits([c]) == if IsDigit(c) then [c] else []
  {
    assert [c][1..] == [];
  }

  predicate StartsWith(s: string, prefix: string) {
    |prefix| <= |s| && s[..|prefix|] == prefix
  }

  predicate EndsWith(s: string, suffix: string) {
    |suffix| <= |s| && s[|s| - |suffix|..] == suffix
  }

  /** `s.includes(sub)`. */
  predicate Contains(s: string, sub: string)
    decreases |s|
  {
    StartsWith(s, sub) || (s != [] && Contains(s[1..], sub))
  }

  /** `sub` occurs in `s` starting at position `i`. */
  predicate OccursAt(s: string, sub: string, i: int) {
    0 <= i <= |s| - |sub| && s[i..i + |sub|] == sub
  }

  /** `includes` holds exactly when `sub` occurs at some position of `s`. */
  lemma {:induction false} ContainsIffOccurs(s: string, sub: string)
    ensures Contains(s, sub) <==> exists i :: OccursAt(s, sub, i)
    decreases |s|
  {
    if StartsWith(s, sub) {
      assert OccursAt(s, sub, 0);
    }
    if s != [] {
      ContainsIffOccurs(s[1..], sub);
      if exists i :: OccursAt(s, sub, i) {
        var i :| OccursAt(s, sub, i);
        if i > 0 {
          assert s[1..][i - 1..i - 1 + |sub|] == sub;
          assert OccursAt(s[1..], sub, i - 1);
        }
      }
      if Contains(s[1..], sub) {
        var j :| OccursAt(s[1..], sub, j);
        assert s[j + 1..j + 1 + |sub|] == sub;
        assert OccursAt(s, sub, j + 1);
      }
    } else {
      if exists i :: OccursAt(s, sub, i) {
        var i :| OccursAt(s, sub, i);
        assert sub == [];
      }
    }
  }

  function LowerChar(c: char): char {
    if 'A' <= c <= 'Z' then (c as int + 32) as char else c
  }

  function UpperChar(c: char): char {
    if 'a' <= c <= 'z' then (c as int - 32) as char else c
  }

  /** `s.toLowerCase()` on the ASCII letters. */
  function ToLower(s: string): (r: string)
    ensures |r| == |s|
    ensures forall i :: 0 <= i < |s| ==> r[i] == LowerChar(s[i])
  {
    if s == [] then [] else [LowerChar(s[0])] + ToLower(s[1..])
  }

  /** `s.toUpperCase()` on the ASCII letters. */
  function ToUpper(s: string): (r: string)
    ensures |r| == |s|
    ensures forall i :: 0 <= i < |s| ==> r[i] == UpperChar(s[i])
  {
    if s == [] then [] else [UpperChar(s[0])] + ToUpper(s[1..])
  }

  // ---------------------------------------------------------------------
  // Decimal rendering of integers (template literals `${n}`)

  function DigitChar(d: nat): char
    requires d < 10
  {
    ('0' as int + d) as char
  }

  function DigitValue(c: char): nat
    requires IsDigit(c)
  {
    c as int - '0' as int
  }

  predicate AllDigits(s: string) {
    forall i :: 0 <= i < |s| ==> IsDigit(s[i])
  }

  /** `${n}` for a non-negative integer. */
  function NatToString(n: nat): (r: string)
    ensures |r| >= 1 && AllDigits(r)
    ensures |r| > 1 ==> r[0] != '0'
  {
    if n < 10 then [DigitChar(n)] else NatToString(n / 10) + [DigitChar(n % 10)]
  }

  /** The value of a string of decimal digits. */
  function ParseNat(s: string): nat
    requires AllDigits(s)
  {
    if s == [] then 0 else ParseNat(s[..|s| - 1]) * 10 + DigitValue(s[|s| - 1])
  }

  /** Reading back a rendered number gives the number. */
  lemma {:induction false} ParseNatToString(n: nat)
    ensures ParseNat(NatToString(n)) == n
  {
    if n >= 10 {
      var s := NatToString(n);
      assert s[..|s| - 1] == NatToString(n / 10);
      ParseNatToString(n / 10);
    }
  }

  /** Distinct numbers render as distinct strings. */
  lemma NatToStringInjective(a: nat, b: nat)
    requires NatToString(a) == NatToString(b)
    ensures a == b
  {
    ParseNatToString(a);
    ParseNatToString(b);
  }

  /** `${i}` for any integer (JavaScript renders integers below 1e21 this way). */
  function IntToString(i: int): (r: string)
    ensures |r| >= 1
    ensures i >= 0 ==> r == NatToString(i)
    ensures i < 0 ==> r == "-" + NatToString(-i)
  {
    if i < 0 then "-" + NatToString(-i) else NatToString(i)
  }

  lemma IntToStringInjective(a: int, b: int)
    requires IntToString(a) == IntToString(b)
    ensures a == b
  {
    if a < 0 && b < 0 {
      assert NatToString(-a) == IntToString(a)[1..];
      NatToStringInjective(-a, -b);
    } else if a >= 0 && b >= 0 {
      NatToStringInjective(a, b);
    }
  }

  // ---------------------------------------------------------------------
  // `s.split(sep)` for a one-character separator, and its inverse

  /** `s.split(sep)`: always at least one part; `"".split(sep)` is `[""]`. */
  function Split(s: string, sep: char): (r: seq<string>)
    ensures |r| >= 1
    ensures forall k :: 0 <= k < |r| ==> sep !in r[k]
  {
    if s == [] then [[]]
    else
      var rest := Split(s[1..], sep);
      if s[0] == sep then [[]] + rest else [[s[0]] + rest[0]] + rest[1..]
  }

  /** `parts.join(sep)`. */
  function Join(parts: seq<string>, sep: char): string
    requires |parts| >= 1
  {
    if |parts| == 1 then parts[0] else parts[0] + [sep] + Join(parts[1..], sep)
  }

  /** `parts.join(sep)` for a separator string; `[].join(sep)` is `""`. */
  function JoinWith(parts: seq<string>, sep: string): (r: string)
    ensures |parts| > 0 ==> StartsWith(r, parts[0])
    ensures |parts| > 0 ==> EndsWith(r, parts[|parts| - 1])
    ensures |r| == TotalLength(parts) + (if |parts| == 0 then 0 else |sep| * (|parts| - 1))
  {
    if |parts| == 0 then ""
    else if |parts| == 1 then parts[0]
    else
      var rest := JoinWith(parts[1..], sep);
      assert parts[1..][|parts| - 2] == parts[|parts| - 1];
      parts[0] + sep + rest
  }

  function TotalLength(parts: seq<string>): nat {
    if |parts| == 0 then 0 else |parts[0]| + TotalLength(parts[1..])
  }

  /** A string without the separator splits into itself. */
  lemma {:induction false} SplitWithoutSeparator(a: string, sep: char)
    requires sep !in a
    ensures Split(a, sep) == [a]
  {
    if a != [] {
      assert sep !in a[1..] by {
        forall c | c in a[1..] ensures c in a {
        }
      }
      SplitWithoutSeparator(a[1..], sep);
      assert [a[0]] + a[1..] == a;
    }
  }

  /** The text before the first separator is the first part; the rest is
      split on its own. */
  lemma {:induction false} SplitAtFirst(a: string, b: string, sep: char)
    requires sep !in a
    ensures Split(a + [sep] + b, sep) == [a] + Split(b, sep)
  {
    if a == [] {
      assert a + [sep] + b == [sep] + b;
      assert ([sep] + b)[1..] == b;
    } else {
      assert sep !in a[1..] by {
        forall c | c in a[1..] ensures c in a {
        }
      }
      SplitAtFirst(a[1..], b, sep);
      var s := a + [sep] + b;
      assert s[0] == a[0] && s[1..] == a[1..] + [sep] + b;
      assert [a[0]] + a[1..] == a;
    }
  }

  /** Joining the parts of a split gives back the split string. */
  lemma {:induction false} JoinSplit(s: string, sep: char)
    ensures Join(Split(s, sep), sep) == s
  {
    if s != [] {
      JoinSplit(s[1..], sep);
      var rest := Split(s[1..], sep);
      if s[0] != sep {
        var r := Split(s, sep);
        assert r[0] == [s[0]] + rest[0];
        if |rest| > 1 {
          assert r[1..] == rest[1..];
        }
      }
    }
  }

  /** Splitting a join of separator-free parts gives back the parts. */
  lemma {:induction false} SplitJoin(parts: seq<string>, sep: char)
    requires |parts| >= 1
    requires forall k :: 0 <= k < |parts| ==> sep !in parts[k]
    ensures Split(Join(parts, sep), sep) == parts
    decreases |parts|, |parts[0]|
  {
    if parts[0] == [] {
      if |parts| > 1 {
        assert Join(parts, sep) == [sep] + Join(parts[1..], sep);
        assert (Join(parts, sep))[1..] == Join(parts[1..], sep);
        SplitJoin(parts[1..], sep);
      }
    } else {
      var tail := [parts[0][1..]] + parts[1..];
      assert tail[1..] == parts[1..];
      assert Join(parts, sep) == [parts[0][0]] + Join(tail, sep) by {
        if |parts| > 1 {
          assert Join(tail, sep) == parts[0][1..] + [sep] + Join(parts[1..], sep);
        }
      }
      assert parts[0][0] in parts[0];
      assert forall k :: 0 <= k < |tail| ==> sep !in tail[k] by {
        forall c | c in parts[0][1..] ensures c in parts[0] {
        }
      }
      SplitJoin(tail, sep);
      assert [parts[0][0]] + parts[0][1..] == parts[0];
    }
  }

  // ---------------------------------------------------------------------
  // Percent-encoding (encodeURIComponent, URLSearchParams)

  /** The bytes of the UTF-8 encoding of a Unicode scalar value. */
  function Utf8(c: char): (r: seq<nat>)
    ensures 1 <= |r| <= 4
    ensures forall i :: 0 <= i < |r| ==> r[i] < 256
    ensures |r| == 1 <==> c as int < 0x80
    ensures |r| == 1 ==> r[0] == c as int
  {
    var cp := c as int;
    if cp < 0x80 then [cp]
    else if cp < 0x800 then [0xC0 + cp / 64, 0x80 + cp % 64]
    else if cp < 0x10000 then [0xE0 + cp / 4096, 0x80 + (cp / 64) % 64, 0x80 + cp % 64]
    else [0xF0 + cp / 262144, 0x80 + (cp / 4096) % 64, 0x80 + (cp / 64) % 64, 0x80 + cp % 64]
  }

  function HexChar(d: nat): (c: char)
    requires d < 16
    ensures IsUpperHex(c)
  {
    if d < 10 then DigitChar(d) else ('A' as int + d - 10) as char
  }

  predicate IsUpperHex(c: char) { IsDigit(c) || 'A' <= c <= 'F' }

  /** `%XY` for each byte, upper-case hexadecimal as JavaScript writes it. */
  function PercentBytes(bytes: seq<nat>): (r: string)
    requires forall i :: 0 <= i < |bytes| ==> bytes[i] < 256
    ensures |r| == 3 * |bytes|
    ensures forall i :: 0 <= i < |r| ==> r[i] == '%' || IsUpperHex(r[i])
  {
    if bytes == [] then []
    else ['%', HexChar(bytes[0] / 16), HexChar(bytes[0] % 16)] + PercentBytes(bytes[1..])
  }

  predicate IsAsciiAlnum(c: char) {
    IsDigit(c) || 'A' <= c <= 'Z' || 'a' <= c <= 'z'
  }

  /** The characters encodeURIComponent leaves as they are. */
  predicate IsUriUnreserved(c: char) {
    IsAsciiAlnum(c) || c in "-_.!~*'()"
  }

  /** `encodeURIComponent(s)`. */
  function EncodeUriComponent(s: string): (r: string)
    ensures forall i :: 0 <= i < |r| ==> IsUriUnreserved(r[i]) || r[i] == '%'
  {
    if s == [] then []
    else (if IsUriUnreserved(s[0]) then [s[0]] else PercentBytes(Utf8(s[0]))) + EncodeUriComponent(s[1..])
  }

  /** A string of unreserved characters is its own encoding. */
  lemma {:induction false} EncodeUriComponentUnreserved(s: string)
    requires forall i :: 0 <= i < |s| ==> IsUriUnreserved(s[i])
    ensures EncodeUriComponent(s) == s
  {
    if s != [] {
      EncodeUriComponentUnreserved(s[1..]);
    }
  }

  /** The characters the application/x-www-form-urlencoded serializer keeps. */
  predicate IsFormSafe(c: char) {
    IsAsciiAlnum(c) || c in "*-._"
  }

  /** One name or value as URLSearchParams serializes it: spaces become `+`. */
  function FormEncode(s: string): (r: string)
    ensures forall i :: 0 <= i < |r| ==> IsFormSafe(r[i]) || r[i] == '%' || r[i] == '+'
  {
    if s == [] then []
    else (if IsFormSafe(s[0]) then [s[0]] else if s[0] == ' ' then ['+'] else PercentBytes(Utf8(s[0])))
         + FormEncode(s[1..])
  }

  lemma {:induction false} FormEncodeSafe(s: string)
    requires forall i :: 0 <= i < |s| ==> IsFormSafe(s[i])
    ensures FormEncode(s) == s
  {
    if s != [] {
      FormEncodeSafe(s[1..]);
    }
  }
}
