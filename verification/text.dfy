/** String and character helpers shared by the model: PHP's string truthiness,
    ASCII case mapping, substring search and first-occurrence replacement,
    joining, `trim`/`rtrim`, `str_pad` and decimal rendering of integers. */
module Text {
  import opened Wrappers

  type byte = x: int | 0 <= x < 256

  /** PHP truthiness of a string: only "" and "0" are falsy. */
  predicate Truthy(s: string) {
    s != "" && s != "0"
  }

  /** PHP truthiness of an optional string (a missing env value is `null`). */
  predicate TruthyOpt(s: Option<string>) {
    s.Some? && Truthy(s.value)
  }

  // ---------------------------------------------------------------- case

  function LowerChar(c: char): char {
    if 'A' <= c <= 'Z' then (c as int + 32) as char else c
  }

  function UpperChar(c: char): char {
    if 'a' <= c <= 'z' then (c as int - 32) as char else c
  }

  /** ASCII lower-casing, as PHP's `strtolower`. */
  function Lower(s: string): (r: string)
    ensures |r| == |s|
    ensures forall i :: 0 <= i < |s| ==> r[i] == LowerChar(s[i])
  {
    seq(|s|, i requires 0 <= i < |s| => LowerChar(s[i]))
  }

  /** ASCII upper-casing, as PHP's `strtoupper`. */
  function Upper(s: string): (r: string)
    ensures |r| == |s|
    ensures forall i :: 0 <= i < |s| ==> r[i] == UpperChar(s[i])
  {
    seq(|s|, i requires 0 <= i < |s| => UpperChar(s[i]))
  }

  // ----------------------------------------------------------- searching

  predicate MatchesAt(s: string, pat: string, i: nat) {
    i + |pat| <= |s| && s[i..i + |pat|] == pat
  }

  predicate Contains(s: string, pat: string) {
    exists i: nat | i <= |s| :: MatchesAt(s, pat, i)
  }

  /** Position of the first occurrence of `pat` in `s` at or after `from`. */
  function IndexFrom(s: string, pat: string, from: nat): (r: Option<nat>)
    decreases |s| - from
    ensures r.Some? ==> from <= r.value && MatchesAt(s, pat, r.value)
    ensures r.Some? ==> forall j: nat :: from <= j < r.value ==> !MatchesAt(s, pat, j)
    ensures r.None? ==> forall j: nat :: from <= j ==> !MatchesAt(s, pat, j)
  {
    if from + |pat| > |s| then None
    else if s[from..from + |pat|] == pat then Some(from)
    else IndexFrom(s, pat, from + 1)
  }

  /** Position of the first occurrence of `pat` in `s` (`strpos`, JS `indexOf`). */
  function IndexOf(s: string, pat: string): (r: Option<nat>)
    ensures r.Some? <==> Contains(s, pat)
    ensures r.Some? ==> MatchesAt(s, pat, r.value)
    ensures r.Some? ==> forall j: nat :: j < r.value ==> !MatchesAt(s, pat, j)
  {
    var r := IndexFrom(s, pat, 0);
    assert r.Some? ==> MatchesAt(s, pat, r.value);
    r
  }

  /** Case-insensitive containment, as `stripos(s, pat) !== false`. */
  predicate ContainsNoCase(s: string, pat: string) {
    Contains(Lower(s), Lower(pat))
  }

  /** JavaScript's `String.prototype.replace` with a plain string pattern:
      only the first occurrence is replaced. */
  function ReplaceFirst(s: string, pat: string, rep: string): (r: string)
    ensures !Contains(s, pat) ==> r == s
    ensures Contains(s, pat) ==> exists i: nat ::
      MatchesAt(s, pat, i) && r == s[..i] + rep + s[i + |pat|..] &&
      (forall j: nat :: j < i ==> !MatchesAt(s, pat, j))
  {
    match IndexOf(s, pat)
    case None => s
    case Some(i) => s[..i] + rep + s[i + |pat|..]
  }

  // -------------------------------------------------------------- joining

  /** `implode(sep, parts)`. */
  function Join(parts: seq<string>, sep: string): string {
    if |parts| == 0 then ""
    else if |parts| == 1 then parts[0]
    else parts[0] + sep + Join(parts[1..], sep)
  }

  /** Position of the first `c` in `s`, or `|s|` when there is none. */
  function FindChar(s: string, c: char): (i: nat)
    ensures i <= |s|
    ensures i < |s| ==> s[i] == c
    ensures forall j :: 0 <= j < i ==> s[j] != c
  {
    if |s| == 0 then 0
    else if s[0] == c then 0
    else 1 + FindChar(s[1..], c)
  }

  /** `explode(sep, s)` for a one-character separator. */
  function Split(s: string, sep: char): (parts: seq<string>)
    ensures |parts| >= 1
    decreases |s|
  {
    var i := FindChar(s, sep);
    if i == |s| then [s] else [s[..i]] + Split(s[i + 1..], sep)
  }

  /** Splitting undoes joining, when no part holds the separator. */
  lemma {:induction false} SplitJoin(parts: seq<string>, sep: char)
    requires |parts| >= 1
    requires forall k :: 0 <= k < |parts| ==> sep !in parts[k]
    ensures Split(Join(parts, [sep]), sep) == parts
  {
    var s := Join(parts, [sep]);
    if |parts| == 1 {
      assert FindChar(s, sep) == |s|;
    } else {
      var rest := Join(parts[1..], [sep]);
      assert s == parts[0] + [sep] + rest;
      var n := |parts[0]|;
      assert s[n] == sep;
      assert forall j :: 0 <= j < n ==> s[j] == parts[0][j];
      assert FindChar(s, sep) == n;
      assert s[..n] == parts[0];
      assert s[n + 1..] == rest;
      SplitJoin(parts[1..], sep);
      assert parts == [parts[0]] + parts[1..];
    }
  }

  // ------------------------------------------------------------- trimming

  /** The characters PHP's `trim` removes by default. */
  predicate IsPhpSpace(c: char) {
    c == ' ' || c == '\t' || c == '\n' || c == '\r' || c == '\0' || c as int == 11
  }

  /** `rtrim(s, chars)` with the character set given as a predicate. */
  function RTrimBy(s: string, strip: char -> bool): (r: string)
    ensures |r| <= |s| && r == s[..|r|]
    ensures |r| > 0 ==> !strip(r[|r| - 1])
    ensures forall i :: |r| <= i < |s| ==> strip(s[i])
  {
    if |s| > 0 && strip(s[|s| - 1]) then RTrimBy(s[..|s| - 1], strip) else s
  }

  /** Trimming removes exactly a stripped tail when the text before it does
      not end in a stripped character. */
  lemma RTrimByTrailing(core: string, tail: string, strip: char -> bool)
    requires forall i :: 0 <= i < |tail| ==> strip(tail[i])
    requires |core| > 0 ==> !strip(core[|core| - 1])
    ensures RTrimBy(core + tail, strip) == core
  {
    var s := core + tail;
    var r := RTrimBy(s, strip);
    if |core| > 0 {
      assert s[|core| - 1] == core[|core| - 1];
    }
    if |r| > 0 {
      assert r[|r| - 1] == s[|r| - 1];
    }
    assert s[..|core|] == core;
  }

  /** `ltrim` with the default PHP whitespace set. */
  function LTrimSpace(s: string): (r: string)
    ensures |r| <= |s| && r == s[|s| - |r|..]
    ensures |r| > 0 ==> !IsPhpSpace(r[0])
    ensures forall i :: 0 <= i < |s| - |r| ==> IsPhpSpace(s[i])
  {
    if |s| > 0 && IsPhpSpace(s[0]) then LTrimSpace(s[1..]) else s
  }

  /** `trim(s)` with the default PHP whitespace set. */
  function Trim(s: string): (r: string)
    ensures |r| <= |s|
    ensures |r| > 0 ==> !IsPhpSpace(r[0]) && !IsPhpSpace(r[|r| - 1])
  {
    LTrimSpace(RTrimBy(s, IsPhpSpace))
  }

  /** PHP's `substr(s, -1)`: the last character, or "" for the empty string. */
  function LastChar(s: string): (r: string)
    ensures |s| == 0 ==> r == ""
    ensures |s| > 0 ==> r == [s[|s| - 1]]
  {
    if |s| == 0 then "" else s[|s| - 1..]
  }

  /** `substr_count(s, [c])`. */
  function CountChar(s: string, c: char): (n: nat)
    ensures n <= |s|
    ensures n == |set i | 0 <= i < |s| && s[i] == c|
  {
    if |s| == 0 then 0
    else
      var rest := CountChar(s[..|s| - 1], c);
      var last := |s| - 1;
      assert (set i | 0 <= i < |s| && s[i] == c) ==
        (set i | 0 <= i < last && s[..last][i] == c) +
        (if s[last] == c then {last} else {});
      rest + (if s[last] == c then 1 else 0)
  }

  // ------------------------------------------------------------- decimals

  function DigitChar(d: nat): char
    requires d < 10
  {
    "0123456789"[d]
  }

  predicate IsDigit(c: char) {
    '0' <= c <= '9'
  }

  function DigitValue(c: char): nat
    requires IsDigit(c)
  {
    c as int - '0' as int
  }

  /** Number of decimal digits PHP prints for `n`. */
  function NumDigits(n: nat): (k: nat)
    ensures k >= 1
  {
    if n < 10 then 1 else 1 + NumDigits(n / 10)
  }

  /** Decimal rendering of a non-negative integer, as PHP's string conversion. */
  function NatToString(n: nat): (r: string)
    ensures |r| == NumDigits(n)
    ensures forall i :: 0 <= i < |r| ==> IsDigit(r[i])
    ensures |r| > 1 ==> r[0] != '0'
  {
    if n < 10 then [DigitChar(n)]
    else NatToString(n / 10) + [DigitChar(n % 10)]
  }

  /** Decimal rendering of an integer, with a leading '-' when negative. */
  function IntToString(n: int): string {
    if n < 0 then "-" + NatToString(-n) else NatToString(n)
  }

  /** Reads a string of decimal digits back as a number. */
  function ParseNat(s: string): nat
    requires forall i :: 0 <= i < |s| ==> IsDigit(s[i])
  {
    if |s| == 0 then 0
    else ParseNat(s[..|s| - 1]) * 10 + DigitValue(s[|s| - 1])
  }

  /** Rendering a number in decimal loses nothing: reading it back gives the number. */
  lemma {:induction false} ParseNatToString(n: nat)
    ensures ParseNat(NatToString(n)) == n
  {
    if n >= 10 {
      var p := NatToString(n / 10);
      var s := NatToString(n);
      assert s[..|s| - 1] == p;
      ParseNatToString(n / 10);
    }
  }

  /** Distinct numbers render as distinct strings. */
  lemma NatToStringInjective(a: nat, b: nat)
    requires NatToString(a) == NatToString(b)
    ensures a == b
  {
    ParseNatToString(a);
    ParseNatToString(b);
  }

  /** Leading zeros do not change the value read. */
  lemma {:induction false} ParseNatLeadingZeros(z: string, s: string)
    requires forall i :: 0 <= i < |z| ==> z[i] == '0'
    requires forall i :: 0 <= i < |s| ==> IsDigit(s[i])
    ensures ParseNat(z + s) == ParseNat(s)
    decreases |s|, |z|
  {
    if |s| == 0 {
      assert z + s == z;
      if |z| > 0 {
        ParseNatLeadingZeros(z[..|z| - 1], "");
        assert z[..|z| - 1] + "" == z[..|z| - 1];
      }
    } else {
      var t := z + s;
      assert t[..|t| - 1] == z + s[..|s| - 1];
      assert t[|t| - 1] == s[|s| - 1];
      ParseNatLeadingZeros(z, s[..|s| - 1]);
    }
  }

  /** Zero-padding a rendered number keeps its value. */
  lemma PadLeftKeepsValue(n: nat, width: nat)
    ensures AllDigits(PadLeft(NatToString(n), width, '0'))
    ensures ParseNat(PadLeft(NatToString(n), width, '0')) == n
  {
    var d := NatToString(n);
    var r := PadLeft(d, width, '0');
    var z := r[..|r| - |d|];
    assert r == z + d;
    ParseNatLeadingZeros(z, d);
    ParseNatToString(n);
  }

  predicate AllDigits(s: string) {
    forall i :: 0 <= i < |s| ==> IsDigit(s[i])
  }

  /** Reads an optionally signed decimal integer; nothing when malformed. */
  function ParseInt(s: string): (r: Option<int>)
    ensures s == "" ==> r.None?
  {
    if |s| > 1 && s[0] == '-' && AllDigits(s[1..]) then
      var v: int := -(ParseNat(s[1..]) as int);
      Some(v)
    else if |s| > 0 && AllDigits(s) then Some(ParseNat(s))
    else None
  }

  /** Reading back a rendered integer gives the integer. */
  lemma ParseIntToString(n: int)
    ensures ParseInt(IntToString(n)) == Some(n)
  {
    var t := NatToString(if n < 0 then -n else n);
    assert AllDigits(t);
    ParseNatToString(if n < 0 then -n else n);
    if n < 0 {
      assert IntToString(n) == "-" + t;
      ParseIntNegative(t);
    } else {
      assert IntToString(n) == t;
      ParseIntDigits(t);
    }
  }

  /** A minus sign before digits reads as the negated number. */
  lemma ParseIntNegative(t: string)
    requires |t| > 0 && AllDigits(t)
    ensures ParseInt("-" + t) == Some(-(ParseNat(t) as int))
  {
    assert ("-" + t)[1..] == t;
  }

  /** Digits alone read as the number they spell. */
  lemma ParseIntDigits(t: string)
    requires |t| > 0 && AllDigits(t)
    ensures ParseInt(t) == Some(ParseNat(t))
  {
    assert IsDigit(t[0]);
  }

  /** `str_pad(s, width, [c], STR_PAD_LEFT)`: left-padding that never truncates. */
  function PadLeft(s: string, width: nat, c: char): (r: string)
    ensures |r| == if |s| >= width then |s| else width
    ensures r[|r| - |s|..] == s
    ensures forall i :: 0 <= i < |r| - |s| ==> r[i] == c
  {
    if |s| >= width then s else seq(width - |s|, _ => c) + s
  }
}
