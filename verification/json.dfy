/** Decoded JSON values as PHP sees them after `json_decode($s, true)`:
    objects and lists both become PHP arrays. The helpers give PHP's
    `$a[$k] ?? null`, `isset`, `is_array`, `empty`, `count`, `array_keys`
    and string conversion. Numbers are integers, plus the two-decimal floats
    the application builds itself with `round($x, 2)`, held in hundredths;
    other floats are not modelled. */
module Json {
  import opened Wrappers
  import opened Text

  datatype Json =
    | JNull
    | JBool(b: bool)
    | JNum(n: int)
    | JDec(hundredths: int)
    | JStr(s: string)
    | JArr(items: seq<Json>)
    | JObj(members: seq<(string, Json)>)

  predicate IsArray(j: Json) {
    j.JArr? || j.JObj?
  }

  /** The key/value pairs of a PHP array; a JSON list is keyed 0, 1, ...
      (rendered in decimal, which is how PHP compares them to string keys). */
  function Members(j: Json): (m: seq<(string, Json)>)
    ensures !IsArray(j) ==> m == []
    ensures j.JObj? ==> m == j.members
    ensures j.JArr? ==> |m| == |j.items|
  {
    match j
    case JObj(ms) => ms
    case JArr(items) => seq(|items|, i requires 0 <= i < |items| => (NatToString(i), items[i]))
    case _ => []
  }

  function Find(ms: seq<(string, Json)>, key: string): (r: Option<Json>)
    ensures r.None? <==> forall i :: 0 <= i < |ms| ==> ms[i].0 != key
    ensures r.Some? ==> exists i :: 0 <= i < |ms| && ms[i] == (key, r.value)
  {
    if |ms| == 0 then None
    else if ms[0].0 == key then Some(ms[0].1)
    else Find(ms[1..], key)
  }

  /** The value found for a key is the one at its first position. */
  lemma {:induction false} FindAt(ms: seq<(string, Json)>, i: nat)
    requires i < |ms|
    requires forall j :: 0 <= j < i ==> ms[j].0 != ms[i].0
    ensures Find(ms, ms[i].0) == Some(ms[i].1)
  {
    if i > 0 {
      FindAt(ms[1..], i - 1);
    }
  }

  /** `$j[$key]` when the key exists; nothing when it does not or `$j` is not an array. */
  function Lookup(j: Json, key: string): Option<Json> {
    Find(Members(j), key)
  }

  /** `$j[$key] ?? null`. */
  function Get(j: Json, key: string): Json {
    match Lookup(j, key)
    case Some(v) => v
    case None => JNull
  }

  /** Members appended after a key's first occurrence do not change what it finds. */
  lemma {:induction false} FindPrefix(a: seq<(string, Json)>, b: seq<(string, Json)>, key: string)
    requires Find(a, key).Some?
    ensures Find(a + b, key) == Find(a, key)
  {
    if a[0].0 != key {
      assert (a + b)[1..] == a[1..] + b;
      FindPrefix(a[1..], b, key);
    }
  }

  /** `$j[$key]` of an object whose leading members already hold the key. */
  lemma GetPrefix(a: seq<(string, Json)>, b: seq<(string, Json)>, key: string)
    requires Find(a, key).Some?
    ensures Get(JObj(a + b), key) == Find(a, key).value
  {
    FindPrefix(a, b, key);
  }

  /** `$j[$key]` of an object literal whose key first appears at position `i`. */
  lemma GetMember(ms: seq<(string, Json)>, i: nat)
    requires i < |ms|
    requires forall j :: 0 <= j < i ==> ms[j].0 != ms[i].0
    ensures Get(JObj(ms), ms[i].0) == ms[i].1
  {
    FindAt(ms, i);
  }

  /** `isset($j[$key])`: present and not null. */
  predicate Isset(j: Json, key: string) {
    Get(j, key) != JNull
  }

  /** `count($j)` for an array. */
  function Count(j: Json): nat {
    |Members(j)|
  }

  /** `array_keys($j)`. */
  function Keys(j: Json): (ks: seq<string>)
    ensures |ks| == Count(j)
  {
    var ms := Members(j);
    seq(|ms|, i requires 0 <= i < |ms| => ms[i].0)
  }

  /** PHP truthiness of a decoded value (`if ($v)`, `!empty($v)`). */
  predicate IsTruthy(j: Json) {
    match j
    case JNull => false
    case JBool(b) => b
    case JNum(n) => n != 0
    case JDec(h) => h != 0
    case JStr(s) => Text.Truthy(s)
    case JArr(items) => |items| > 0
    case JObj(ms) => |ms| > 0
  }

  /** The string PHP passes to a string parameter; arrays are refused with a
      TypeError, which is `None` here. */
  function StringCast(j: Json): (r: Option<string>)
    ensures r.None? <==> IsArray(j)
  {
    match j
    case JNull => Some("")
    case JBool(b) => Some(if b then "1" else "")
    case JNum(n) => Some(IntToString(n))
    case JDec(h) => Some(FloatString(h))
    case JStr(s) => Some(s)
    case _ => None
  }

  /** PHP's string conversion of the float `h / 100`: the shortest decimal,
      so `703.0` prints as "703" and `112.50` as "112.5". */
  function FloatString(h: int): string {
    var a := if h < 0 then -h else h;
    var frac := a % 100;
    var digits :=
      if frac == 0 then ""
      else if frac % 10 == 0 then "." + [DigitChar(frac / 10)]
      else "." + [DigitChar(frac / 10), DigitChar(frac % 10)];
    (if h < 0 then "-" else "") + NatToString(a / 100) + digits
  }

  /** `json_decode` followed by `json_last_error` / `json_last_error_msg`:
      the decoded value, or the error code and message. */
  datatype Decoded = Parsed(value: Json) | ParseError(code: int, message: string)
}
