/** Base64 as the client uses it: the standard encoding of section 4 of
    RFC 4648 (PHP's `base64_encode` / `base64_decode` on well-formed input)
    and the URL-safe variant of section 5 with the `=` padding stripped
    (the controller's `base64UrlEncode`, used for every JWT segment). */
module Base64 {
  import opened Wrappers
  import opened Text

  type sextet = x: int | 0 <= x < 64

  /** The standard alphabet: A-Z, a-z, 0-9, '+', '/'. */
  function StdChar(v: sextet): char {
    if v < 26 then ('A' as int + v) as char
    else if v < 52 then ('a' as int + (v - 26)) as char
    else if v < 62 then ('0' as int + (v - 52)) as char
    else if v == 62 then '+'
    else '/'
  }

  /** Inverse of `StdChar`; nothing for characters outside the alphabet. */
  function StdValue(c: char): (r: Option<sextet>)
    ensures r.Some? ==> StdChar(r.value) == c
  {
    if 'A' <= c <= 'Z' then Some(c as int - 'A' as int)
    else if 'a' <= c <= 'z' then Some(c as int - 'a' as int + 26)
    else if '0' <= c <= '9' then Some(c as int - '0' as int + 52)
    else if c == '+' then Some(62)
    else if c == '/' then Some(63)
    else None
  }

  lemma StdValueOfChar(v: sextet)
    ensures StdValue(StdChar(v)) == Some(v)
  {
  }

  predicate IsStdChar(c: char) {
    StdValue(c).Some?
  }

  // ------------------------------------------------------------ encoding

  function Quad(b0: byte, b1: byte, b2: byte): string {
    [StdChar(b0 / 4), StdChar((b0 % 4) * 16 + b1 / 16), StdChar((b1 % 16) * 4 + b2 / 64), StdChar(b2 % 64)]
  }

  /** Base64 of `b` without the trailing padding: four characters per three
      bytes, then two or three characters for a final one or two bytes. */
  function EncodeNoPad(b: seq<byte>): (r: string)
    ensures |r| == (4 * |b| + 2) / 3
    ensures forall i :: 0 <= i < |r| ==> IsStdChar(r[i])
  {
    if |b| == 0 then ""
    else if |b| == 1 then [StdChar(b[0] / 4), StdChar((b[0] % 4) * 16)]
    else if |b| == 2 then
      [StdChar(b[0] / 4), StdChar((b[0] % 4) * 16 + b[1] / 16), StdChar((b[1] % 16) * 4)]
    else Quad(b[0], b[1], b[2]) + EncodeNoPad(b[3..])
  }

  function Padding(n: nat): string {
    if n % 3 == 1 then "==" else if n % 3 == 2 then "=" else ""
  }

  /** `base64_encode`: the padded standard encoding. */
  function Encode(b: seq<byte>): (r: string)
    ensures |r| % 4 == 0
    ensures |r| == 4 * ((|b| + 2) / 3)
  {
    PaddedLength(|b|);
    EncodeNoPad(b) + Padding(|b|)
  }

  /** The unpadded length plus the padding fills whole groups of four. */
  lemma PaddedLength(n: nat)
    ensures (4 * n + 2) / 3 + |Padding(n)| == 4 * ((n + 2) / 3)
  {
    var q := n / 3;
    if n % 3 == 0 {
      assert n == 3 * q;
    } else if n % 3 == 1 {
      assert n == 3 * q + 1;
    } else {
      assert n == 3 * q + 2;
    }
  }

  // ------------------------------------------------------------ decoding

  function Sextets(s: string): (r: Option<seq<sextet>>)
    ensures r.Some? ==> |r.value| == |s|
  {
    if |s| == 0 then Some([])
    else match (StdValue(s[0]), Sextets(s[1..]))
      case (Some(v), Some(vs)) => Some([v] + vs)
      case _ => None
  }

  /** The three bytes a group of four sextets carries (the first one or two
      alone when the group is cut short). */
  function Byte0(a: sextet, b: sextet): byte { (a as int) * 4 + (b as int) / 16 }
  function Byte1(b: sextet, c: sextet): byte { ((b as int) % 16) * 16 + (c as int) / 4 }
  function Byte2(c: sextet, d: sextet): byte { ((c as int) % 4) * 64 + (d as int) }

  /** Decodes padding-free base64 text; a lone trailing character is malformed. */
  function DecodeNoPad(s: string): Option<seq<byte>>
  {
    if |s| == 0 then Some([])
    else if |s| == 1 then None
    else if |s| == 2 then
      match Sextets(s)
      case Some(v) =>
        var out: seq<byte> := [Byte0(v[0], v[1])];
        Some(out)
      case None => None
    else if |s| == 3 then
      match Sextets(s)
      case Some(v) =>
        var out: seq<byte> := [Byte0(v[0], v[1]), Byte1(v[1], v[2])];
        Some(out)
      case None => None
    else
      match (Sextets(s[..4]), DecodeNoPad(s[4..]))
      case (Some(v), Some(rest)) =>
        var out: seq<byte> := [Byte0(v[0], v[1]), Byte1(v[1], v[2]), Byte2(v[2], v[3])];
        Some(out + rest)
      case _ => None
  }

  /** Strict decoding of padded base64: length a multiple of four, at most two
      trailing `=`, every other character in the alphabet. */
  function Decode(s: string): Option<seq<byte>>
  {
    if |s| % 4 != 0 then None
    else if |s| >= 2 && s[|s| - 2..] == "==" then DecodeNoPad(s[..|s| - 2])
    else if |s| >= 1 && s[|s| - 1..] == "=" then DecodeNoPad(s[..|s| - 1])
    else DecodeNoPad(s)
  }

  // ----------------------------------------------------------- round trip

  lemma SextetsOfStd(s: string)
    requires forall i :: 0 <= i < |s| ==> IsStdChar(s[i])
    ensures Sextets(s).Some? && |Sextets(s).value| == |s|
    ensures forall i :: 0 <= i < |s| ==> StdChar(Sextets(s).value[i]) == s[i]
  {
    if |s| > 0 {
      SextetsOfStd(s[1..]);
    }
  }

  lemma SextetsOfChars(vs: seq<sextet>, s: string)
    requires |s| == |vs|
    requires forall i :: 0 <= i < |s| ==> s[i] == StdChar(vs[i])
    ensures Sextets(s) == Some(vs)
  {
    if |s| > 0 {
      StdValueOfChar(vs[0]);
      SextetsOfChars(vs[1..], s[1..]);
      assert vs == [vs[0]] + vs[1..];
    }
  }

  lemma OneByte(b0: byte)
    ensures DecodeNoPad([StdChar(b0 / 4), StdChar((b0 % 4) * 16)]) == Some([b0])
  {
    var s := [StdChar(b0 / 4), StdChar((b0 % 4) * 16)];
    SextetsOfChars([b0 / 4, (b0 % 4) * 16], s);
    assert Byte0(b0 / 4, (b0 % 4) * 16) == b0;
  }

  lemma TwoBytes(b0: byte, b1: byte)
    ensures DecodeNoPad([StdChar(b0 / 4), StdChar((b0 % 4) * 16 + b1 / 16), StdChar((b1 % 16) * 4)])
         == Some([b0, b1])
  {
    var v1 := (b0 % 4) * 16 + b1 / 16;
    var v2 := (b1 % 16) * 4;
    var s := [StdChar(b0 / 4), StdChar(v1), StdChar(v2)];
    SextetsOfChars([b0 / 4, v1, v2], s);
    assert Byte0(b0 / 4, v1) == b0;
    assert Byte1(v1, v2) == b1;
  }

  lemma ThreeBytes(b0: byte, b1: byte, b2: byte)
    ensures Sextets(Quad(b0, b1, b2)).Some?
    ensures var v := Sextets(Quad(b0, b1, b2)).value;
      [Byte0(v[0], v[1]), Byte1(v[1], v[2]), Byte2(v[2], v[3])] == [b0, b1, b2]
  {
    var v1 := (b0 % 4) * 16 + b1 / 16;
    var v2 := (b1 % 16) * 4 + b2 / 64;
    SextetsOfChars([b0 / 4, v1, v2, b2 % 64], Quad(b0, b1, b2));
    assert Byte0(b0 / 4, v1) == b0;
    assert Byte1(v1, v2) == b1;
    assert Byte2(v2, b2 % 64) == b2;
  }

  lemma {:induction false} DecodeEncodeNoPad(b: seq<byte>)
    ensures DecodeNoPad(EncodeNoPad(b)) == Some(b)
  {
    var s := EncodeNoPad(b);
    if |b| == 1 {
      OneByte(b[0]);
      assert b == [b[0]];
    } else if |b| == 2 {
      TwoBytes(b[0], b[1]);
      assert b == [b[0], b[1]];
    } else if |b| >= 3 {
      var q := Quad(b[0], b[1], b[2]);
      var t := EncodeNoPad(b[3..]);
      assert s == q + t;
      SplitAfterFour(q, t);
      ThreeBytes(b[0], b[1], b[2]);
      DecodeEncodeNoPad(b[3..]);
      HeadThree(b);
    }
  }

  lemma SplitAfterFour(q: string, t: string)
    requires |q| == 4
    ensures (q + t)[..4] == q && (q + t)[4..] == t
  {
  }

  lemma HeadThree(b: seq<byte>)
    requires |b| >= 3
    ensures b == [b[0], b[1], b[2]] + b[3..]
  {
  }

  /** `base64_decode(base64_encode(b)) == b`. */
  lemma DecodeEncode(b: seq<byte>)
    ensures Decode(Encode(b)) == Some(b)
  {
    PaddedLength(|b|);
    DecodePadded(EncodeNoPad(b), Padding(|b|));
    DecodeEncodeNoPad(b);
  }

  /** Strict decoding strips exactly the padding that follows text drawn
      from the alphabet. */
  lemma DecodePadded(core: string, pad: string)
    requires pad == "" || pad == "=" || pad == "=="
    requires (|core| + |pad|) % 4 == 0
    requires forall i :: 0 <= i < |core| ==> IsStdChar(core[i])
    ensures Decode(core + pad) == DecodeNoPad(core)
  {
    var s := core + pad;
    assert !IsStdChar('=');
    if pad == "==" {
      assert s[|s| - 2..] == "==";
      assert s[..|s| - 2] == core;
    } else if pad == "=" {
      assert IsStdChar(core[|core| - 1]) && s[|s| - 2] == core[|core| - 1];
      assert s[|s| - 2..] != "==";
      assert s[|s| - 1..] == "=";
      assert s[..|s| - 1] == core;
    } else {
      assert s == core;
      if |s| > 0 {
        assert IsStdChar(s[|s| - 1]);
        assert s[|s| - 1..] != "=";
        assert s[|s| - 2..] != "==";
      }
    }
  }

  // ----------------------------------------------------------- base64url

  function ToUrlChar(c: char): char {
    if c == '+' then '-' else if c == '/' then '_' else c
  }

  function FromUrlChar(c: char): char {
    if c == '-' then '+' else if c == '_' then '/' else c
  }

  predicate IsUrlChar(c: char) {
    ('A' <= c <= 'Z') || ('a' <= c <= 'z') || ('0' <= c <= '9') || c == '-' || c == '_'
  }

  function MapChars(s: string, f: char -> char): (r: string)
    ensures |r| == |s|
    ensures forall i :: 0 <= i < |s| ==> r[i] == f(s[i])
  {
    seq(|s|, i requires 0 <= i < |s| => f(s[i]))
  }

  /** The controller's `base64UrlEncode`: `rtrim(strtr(base64_encode(b), '+/', '-_'), '=')`. */
  function UrlEncode(b: seq<byte>): string {
    RTrimBy(MapChars(Encode(b), ToUrlChar), c => c == '=')
  }

  /** Reading base64url text back: undo the character swap and decode without padding. */
  function UrlDecode(s: string): Option<seq<byte>> {
    if exists i :: 0 <= i < |s| && (s[i] == '+' || s[i] == '/') then None
    else DecodeNoPad(MapChars(s, FromUrlChar))
  }

  /** The padding stripped by `rtrim` is exactly the padding `base64_encode` added. */
  lemma UrlEncodeIsUnpadded(b: seq<byte>)
    ensures UrlEncode(b) == MapChars(EncodeNoPad(b), ToUrlChar)
  {
    var core := MapChars(EncodeNoPad(b), ToUrlChar);
    var pad := MapChars(Padding(|b|), ToUrlChar);
    MapCharsAppend(EncodeNoPad(b), Padding(|b|), ToUrlChar);
    assert |core| > 0 ==> core[|core| - 1] != '=' by {
      if |core| > 0 {
        assert IsStdChar(EncodeNoPad(b)[|core| - 1]);
      }
    }
    RTrimByTrailing(core, pad, c => c == '=');
  }

  lemma MapCharsAppend(x: string, y: string, f: char -> char)
    ensures MapChars(x + y, f) == MapChars(x, f) + MapChars(y, f)
  {
  }

  /** Every base64url segment is drawn from the URL-safe alphabet: no '=', no '.', no '+', no '/'. */
  lemma UrlEncodeAlphabet(b: seq<byte>)
    ensures forall i :: 0 <= i < |UrlEncode(b)| ==> IsUrlChar(UrlEncode(b)[i])
  {
    UrlEncodeIsUnpadded(b);
  }

  /** A base64url segment never holds a dot, so dots can separate segments. */
  lemma UrlEncodeHasNoDot(b: seq<byte>)
    ensures '.' !in UrlEncode(b)
  {
    UrlEncodeAlphabet(b);
  }

  /** Decoding a base64url segment gives back the bytes that were encoded. */
  lemma UrlDecodeEncode(b: seq<byte>)
    ensures UrlDecode(UrlEncode(b)) == Some(b)
  {
    UrlEncodeIsUnpadded(b);
    UrlCharsRoundTrip(EncodeNoPad(b));
    DecodeEncodeNoPad(b);
  }

  /** Swapping standard characters to URL-safe ones leaves no `+` or `/`,
      and swapping back restores the text. */
  lemma UrlCharsRoundTrip(core: string)
    requires forall i :: 0 <= i < |core| ==> IsStdChar(core[i])
    ensures UrlDecode(MapChars(core, ToUrlChar)) == DecodeNoPad(core)
  {
    var u := MapChars(core, ToUrlChar);
    assert forall i :: 0 <= i < |u| ==> u[i] != '+' && u[i] != '/';
    var back := MapChars(u, FromUrlChar);
    forall i | 0 <= i < |core|
      ensures back[i] == core[i]
    {
      assert IsStdChar(core[i]);
    }
    assert back == core;
  }
}
