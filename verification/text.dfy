/** String primitives of the JavaScript runtime that the generator leans on:
    `String.prototype.trim`, `toLowerCase`, `split`, `join`, `padStart` and
    `String(n)`.  A Dafny `string` is a sequence of Unicode scalar values,
    whereas a JavaScript string is a sequence of UTF-16 code units: the two
    agree on every character of the Basic Multilingual Plane, and a
    character outside it counts once here where JavaScript counts two. */
module Text {

  /** The characters matched by `\s` in a JavaScript regular expression, which
      are also the characters `String.prototype.trim` removes. */
  predicate IsSpace(c: char) {
    || c == ' ' || c == '\t' || c == '\n' || c == '\r'
    || c == '\U{000B}' || c == '\U{000C}' || c == '\U{00A0}' || c == '\U{1680}'
    || ('\U{2000}' <= c <= '\U{200A}')
    || c == '\U{2028}' || c == '\U{2029}' || c == '\U{202F}' || c == '\U{205F}'
    || c == '\U{3000}' || c == '\U{FEFF}'
  }

  /** True of the strings that `s.trim()` turns into "" (JavaScript treats
      them as falsy after trimming). */
  predicate IsBlank(s: string) {
    forall i | 0 <= i < |s| :: IsSpace(s[i])
  }

  predicate IsDigit(c: char) {
    '0' <= c <= '9'
  }

  /** `[a-z0-9]` */
  predicate IsLowerAlnum(c: char) {
    ('a' <= c <= 'z') || IsDigit(c)
  }

  function TrimStart(s: string): (r: string)
    ensures |r| <= |s| && r == s[|s| - |r|..]
    ensures r == [] || !IsSpace(r[0])
    ensures forall i | 0 <= i < |s| - |r| :: IsSpace(s[i])
  {
    if |s| > 0 && IsSpace(s[0]) then TrimStart(s[1..]) else s
  }

  function TrimEnd(s: string): (r: string)
    ensures |r| <= |s| && r == s[..|r|]
    ensures r == [] || !IsSpace(r[|r| - 1])
    ensures forall i | |r| <= i < |s| :: IsSpace(s[i])
  {
    if |s| > 0 && IsSpace(s[|s| - 1]) then TrimEnd(s[..|s| - 1]) else s
  }

  /** `s.trim()`: the result is empty exactly for blank input, and otherwise
      neither starts nor ends with white space. */
  function Trim(s: string): (r: string)
    ensures r == "" <==> IsBlank(s)
    ensures r != "" ==> !IsSpace(r[0]) && !IsSpace(r[|r| - 1])
    ensures |r| <= |s|
    ensures (s == [] || (!IsSpace(s[0]) && !IsSpace(s[|s| - 1]))) ==> r == s
  {
    var a := TrimStart(s);
    var r := TrimEnd(a);
    assert r != "" ==> r[0] == a[0];
    TrimBlank(s);
    TrimTrimmed(s);
    r
  }

  lemma TrimBlank(s: string)
    ensures TrimEnd(TrimStart(s)) == "" <==> IsBlank(s)
  {
    var a := TrimStart(s);
    var r := TrimEnd(a);
    var k := |s| - |a|;
    if r == "" {
      assert a == [] && k == |s|;
    } else {
      assert r[0] == a[0] == s[k];
    }
  }

  lemma TrimTrimmed(s: string)
    ensures (s == [] || (!IsSpace(s[0]) && !IsSpace(s[|s| - 1]))) ==> TrimEnd(TrimStart(s)) == s
  {
    if s != [] && !IsSpace(s[0]) && !IsSpace(s[|s| - 1]) {
      assert TrimStart(s) == s;
    }
  }

  /** `String.prototype.toLowerCase` on the ASCII letters; every other
      character is left alone. */
  function LowerChar(c: char): (r: char)
    ensures 'A' <= c <= 'Z' ==> 'a' <= r <= 'z'
    ensures !('A' <= c <= 'Z') ==> r == c
  {
    if 'A' <= c <= 'Z' then (c as int + 32) as char else c
  }

  function Lower(s: string): (r: string)
    ensures |r| == |s|
    ensures forall i | 0 <= i < |s| :: r[i] == LowerChar(s[i])
  {
    if s == [] then [] else [LowerChar(s[0])] + Lower(s[1..])
  }

  /** `parts.join(sep)` */
  function Join(parts: seq<string>, sep: string): string
  {
    if |parts| == 0 then ""
    else if |parts| == 1 then parts[0]
    else parts[0] + sep + Join(parts[1..], sep)
  }

  /** A join opens with its first part. */
  lemma JoinStartsWithFirst(parts: seq<string>, sep: string)
    requires |parts| > 0
    ensures StartsWith(Join(parts, sep), parts[0])
  {
    if |parts| > 1 {
      var j := Join(parts, sep);
      assert j == parts[0] + (sep + Join(parts[1..], sep));
      assert j[..|parts[0]|] == parts[0];
    }
  }

  /** `s.split(c)` for a one-character separator: at least one piece, and no
      piece holds the separator. */
  function Split(s: string, c: char): (r: seq<string>)
    ensures |r| >= 1
    ensures forall i | 0 <= i < |r| :: c !in r[i]
  {
    if s == [] then [""]
    else
      var rest := Split(s[1..], c);
      if s[0] == c then [""] + rest
      else [[s[0]] + rest[0]] + rest[1..]
  }

  /** Joining the pieces of a split with the separator gives back the input. */
  lemma {:induction false} JoinSplit(s: string, c: char)
    ensures Join(Split(s, c), [c]) == s
  {
    if s != [] {
      JoinSplit(s[1..], c);
      var rest := Split(s[1..], c);
      if s[0] == c {
        assert Split(s, c) == [""] + rest;
      } else if |rest| == 1 {
        assert Split(s, c) == [[s[0]] + rest[0]];
      } else {
        var parts := Split(s, c);
        assert parts[1..] == rest[1..];
        assert Join(rest, [c]) == rest[0] + [c] + Join(rest[1..], [c]);
      }
    }
  }

  lemma {:induction false} SplitAppendPiece(a: string, c: char, b: string)
    requires c !in b
    ensures Split(a + [c] + b, c) == Split(a, c) + [b]
  {
    if a == [] {
      SplitNoSeparator(b, c);
      assert a + [c] + b == [c] + b;
      assert ([c] + b)[1..] == b;
    } else {
      SplitAppendPiece(a[1..], c, b);
      assert (a + [c] + b)[1..] == a[1..] + [c] + b;
    }
  }

  lemma {:induction false} SplitNoSeparator(b: string, c: char)
    requires c !in b
    ensures Split(b, c) == [b]
  {
    if b != [] {
      SplitNoSeparator(b[1..], c);
      assert [b[0]] + b[1..] == b;
    }
  }

  /** `path.split("/").pop()`: the last `/`-separated segment. */
  function LastSegment(path: string): (r: string)
    ensures '/' !in r
  {
    var parts := Split(path, '/');
    parts[|parts| - 1]
  }

  lemma LastSegmentOfJoined(dir: string, name: string)
    requires '/' !in name
    ensures LastSegment(dir + "/" + name) == name
    ensures LastSegment(name) == name
  {
    SplitAppendPiece(dir, '/', name);
    assert dir + "/" + name == dir + ['/'] + name;
    SplitNoSeparator(name, '/');
  }

  function Repeat(c: char, n: nat): (r: string)
    ensures |r| == n
    ensures forall i | 0 <= i < n :: r[i] == c
  {
    if n == 0 then "" else [c] + Repeat(c, n - 1)
  }

  /** `s.padStart(width, c)` for a one-character pad string. */
  function PadStart(s: string, width: nat, c: char): (r: string)
    ensures |s| >= width ==> r == s
    ensures |s| < width ==> |r| == width && r[width - |s|..] == s
    ensures forall i | 0 <= i < |r| - |s| :: r[i] == c
  {
    if |s| >= width then s else Repeat(c, width - |s|) + s
  }

  function DigitChar(d: nat): (c: char)
    requires d < 10
    ensures IsDigit(c)
  {
    ('0' as int + d) as char
  }

  function DigitValue(c: char): nat
    requires IsDigit(c)
  {
    c as int - '0' as int
  }

  predicate AllDigits(s: string) {
    forall i | 0 <= i < |s| :: IsDigit(s[i])
  }

  /** Reads a decimal numeral back; the partner of `NatToString`. */
  function ParseDigits(s: string): nat
    requires AllDigits(s)
  {
    if s == [] then 0 else 10 * ParseDigits(s[..|s| - 1]) + DigitValue(s[|s| - 1])
  }

  /** `String(n)` for a non-negative integer: the shortest decimal numeral,
      which reads back as `n`. */
  function NatToString(n: nat): (r: string)
    ensures |r| >= 1 && AllDigits(r)
    ensures ParseDigits(r) == n
    ensures n > 0 ==> r[0] != '0'
    ensures n < 10 ==> |r| == 1
    ensures n < 100 ==> |r| <= 2
    ensures n < 1000 ==> |r| <= 3
  {
    if n < 10 then [DigitChar(n)]
    else
      var r := NatToString(n / 10) + [DigitChar(n % 10)];
      assert r[..|r| - 1] == NatToString(n / 10);
      r
  }

  /** `String(n)` for an integer: a minus sign before the magnitude. */
  function IntToString(n: int): (r: string)
    ensures n >= 0 ==> r == NatToString(n)
    ensures n < 0 ==> r == "-" + NatToString(-n)
  {
    if n < 0 then "-" + NatToString(-n) else NatToString(n)
  }

  lemma {:induction false} LeadingZero(s: string)
    requires AllDigits(s)
    ensures AllDigits("0" + s) && ParseDigits("0" + s) == ParseDigits(s)
  {
    if s != [] {
      LeadingZero(s[..|s| - 1]);
      assert ("0" + s)[..|"0" + s| - 1] == "0" + s[..|s| - 1];
    }
  }

  /** Zero padding does not change the number a numeral denotes. */
  lemma {:induction false} LeadingZeros(k: nat, s: string)
    requires AllDigits(s)
    ensures AllDigits(Repeat('0', k) + s)
    ensures ParseDigits(Repeat('0', k) + s) == ParseDigits(s)
  {
    if k > 0 {
      LeadingZeros(k - 1, s);
      var t := Repeat('0', k - 1) + s;
      LeadingZero(t);
      assert Repeat('0', k) == "0" + Repeat('0', k - 1);
      assert Repeat('0', k) + s == "0" + t;
      assert ParseDigits("0" + t) == ParseDigits(t);
    } else {
      assert Repeat('0', k) + s == s;
    }
  }

  predicate StartsWith(s: string, prefix: string) {
    |prefix| <= |s| && s[..|prefix|] == prefix
  }

  /** `n === 1 ? "" : "s"` — the plural suffix used in every summary line. */
  function PluralSuffix(n: int): string {
    if n != 1 then "s" else ""
  }
}
