/** The string logic of the browser-side resource handler: upgrading Google
    Fonts URLs to HTTPS, choosing a local fallback for an external resource
    that failed, and the stylesheet URL built for intercepted
    `WebFont.load` calls. */
module Fonts {
  import opened Wrappers
  import opened Text

  const HttpFontsApi: string := "http://fonts.googleapis.com"
  const HttpsFontsApi: string := "https://fonts.googleapis.com"
  const HttpFontsStatic: string := "http://fonts.gstatic.com"
  const HttpsFontsStatic: string := "https://fonts.gstatic.com"

  /** Replacing the first occurrence of `pat` by `rep`, which is one character longer. */
  lemma ReplaceFirstGrows(s: string, pat: string, rep: string)
    requires |rep| == |pat| + 1
    ensures Contains(s, pat) ==> |ReplaceFirst(s, pat, rep)| == |s| + 1
    ensures !Contains(s, pat) ==> ReplaceFirst(s, pat, rep) == s
  {
  }

  /** `upgradeGoogleFontsToHttps`: the first `http://fonts.googleapis.com`
      becomes HTTPS; only when there is none, the first
      `http://fonts.gstatic.com` does; otherwise the URL is returned as is. */
  function UpgradeGoogleFontsToHttps(url: string): (r: string)
    ensures Contains(url, HttpFontsApi) ==>
      exists i: nat ::
        MatchesAt(url, HttpFontsApi, i) && (forall j: nat :: j < i ==> !MatchesAt(url, HttpFontsApi, j)) &&
        r == url[..i] + HttpsFontsApi + url[i + |HttpFontsApi|..]
    ensures !Contains(url, HttpFontsApi) && Contains(url, HttpFontsStatic) ==>
      exists i: nat ::
        MatchesAt(url, HttpFontsStatic, i) && (forall j: nat :: j < i ==> !MatchesAt(url, HttpFontsStatic, j)) &&
        r == url[..i] + HttpsFontsStatic + url[i + |HttpFontsStatic|..]
    ensures r == url <==> !Contains(url, HttpFontsApi) && !Contains(url, HttpFontsStatic)
    ensures r != url ==> |r| == |url| + 1
  {
    ReplaceFirstGrows(url, HttpFontsApi, HttpsFontsApi);
    ReplaceFirstGrows(url, HttpFontsStatic, HttpsFontsStatic);
    if Contains(url, HttpFontsApi) then ReplaceFirst(url, HttpFontsApi, HttpsFontsApi)
    else if Contains(url, HttpFontsStatic) then ReplaceFirst(url, HttpFontsStatic, HttpsFontsStatic)
    else url
  }

  /** An upgraded URL carries the HTTPS host where the HTTP one was found. */
  lemma UpgradedHasHttpsHost(url: string)
    ensures Contains(url, HttpFontsApi) ==> Contains(UpgradeGoogleFontsToHttps(url), HttpsFontsApi)
    ensures !Contains(url, HttpFontsApi) && Contains(url, HttpFontsStatic) ==>
      Contains(UpgradeGoogleFontsToHttps(url), HttpsFontsStatic)
  {
    var r := UpgradeGoogleFontsToHttps(url);
    if Contains(url, HttpFontsApi) {
      var i: nat :| MatchesAt(url, HttpFontsApi, i) && r == url[..i] + HttpsFontsApi + url[i + |HttpFontsApi|..];
      assert r[i..i + |HttpsFontsApi|] == HttpsFontsApi;
      assert MatchesAt(r, HttpsFontsApi, i);
    } else if Contains(url, HttpFontsStatic) {
      var i: nat :| MatchesAt(url, HttpFontsStatic, i) && r == url[..i] + HttpsFontsStatic + url[i + |HttpFontsStatic|..];
      assert r[i..i + |HttpsFontsStatic|] == HttpsFontsStatic;
      assert MatchesAt(r, HttpsFontsStatic, i);
    }
  }

  // ---------------------------------------------------------------- fallback

  /** `fallbackMap`, in insertion order (the order `Object.entries` yields). */
  const FallbackMap: seq<(string, string)> := [
    ("ajax.googleapis.com/ajax/libs/webfont/1/webfont.js", "/js/webfont.js"),
    ("eu2dpadevsta020.blob.core.windows.net/boton/bootstrap.css", "/css/bootstrap.css"),
    ("eu2dpadevsta020.blob.core.windows.net/boton/Site.css", "/css/Site.css"),
    ("eu2dpadevsta020.blob.core.windows.net/boton/boton.png", "/img/boton.png")
  ]

  const LocalPaths: set<string> := {"/js/webfont.js", "/css/bootstrap.css", "/css/Site.css", "/img/boton.png"}

  /** The local path of the first entry whose pattern occurs in `url`. */
  function FirstFallback(entries: seq<(string, string)>, url: string): (r: Option<string>)
    ensures r.None? <==> forall i :: 0 <= i < |entries| ==> !Contains(url, entries[i].0)
    ensures r.Some? ==>
      exists i :: 0 <= i < |entries| && Contains(url, entries[i].0) && r.value == entries[i].1 &&
        forall j :: 0 <= j < i ==> !Contains(url, entries[j].0)
  {
    if |entries| == 0 then None
    else if Contains(url, entries[0].0) then Some(entries[0].1)
    else
      var r := FirstFallback(entries[1..], url);
      assert forall i :: 1 <= i < |entries| ==> entries[i] == entries[1..][i - 1];
      r
  }

  /** `getFallbackUrl`; `None` stands for `null`. */
  function GetFallbackUrl(url: string): (r: Option<string>)
    ensures r.None? <==> forall i :: 0 <= i < |FallbackMap| ==> !Contains(url, FallbackMap[i].0)
    ensures r.Some? ==>
      exists i :: 0 <= i < |FallbackMap| && Contains(url, FallbackMap[i].0) && r.value == FallbackMap[i].1 &&
        forall j :: 0 <= j < i ==> !Contains(url, FallbackMap[j].0)
  {
    FirstFallback(FallbackMap, url)
  }

  /** A fallback is always one of the four local files. */
  lemma FallbackIsLocal(url: string)
    ensures GetFallbackUrl(url).Some? ==> GetFallbackUrl(url).value in LocalPaths
  {
  }

  // --------------------------------------------------------------- font URL

  const FontCssBase: string := "https://fonts.googleapis.com/css?family="

  /** The characters of JavaScript's `\s` class. */
  predicate IsJsSpace(c: char) {
    var n := c as int;
    n == 9 || n == 10 || n == 11 || n == 12 || n == 13 || n == 32 || n == 0xA0 || n == 0x1680 ||
    (0x2000 <= n <= 0x200A) || n == 0x2028 || n == 0x2029 || n == 0x202F || n == 0x205F ||
    n == 0x3000 || n == 0xFEFF
  }

  /** `s` without its leading run of spaces. */
  function DropSpaces(s: string): (r: string)
    ensures |r| <= |s| && r == s[|s| - |r|..]
    ensures |r| > 0 ==> !IsJsSpace(r[0])
    ensures |s| > 0 && IsJsSpace(s[0]) ==> |r| < |s|
  {
    if |s| > 0 && IsJsSpace(s[0]) then DropSpaces(s[1..]) else s
  }

  /** `family.replace(/\s+/g, '+')`: every maximal run of spaces becomes one `+`. */
  function PlusSpaces(s: string): (r: string)
    ensures forall i :: 0 <= i < |r| ==> !IsJsSpace(r[i])
    ensures |r| <= |s|
    decreases |s|
  {
    if |s| == 0 then ""
    else if IsJsSpace(s[0]) then "+" + PlusSpaces(DropSpaces(s))
    else [s[0]] + PlusSpaces(s[1..])
  }

  predicate NoSpaces(s: string) {
    forall i :: 0 <= i < |s| ==> !IsJsSpace(s[i])
  }

  /** Text without spaces goes through unchanged. */
  lemma {:induction false} PlusSpacesOfNoSpaces(s: string)
    requires NoSpaces(s)
    ensures PlusSpaces(s) == s
    decreases |s|
  {
    if |s| > 0 {
      PlusSpacesOfNoSpaces(s[1..]);
    }
  }

  /** Rewriting is idempotent. */
  lemma PlusSpacesIdempotent(s: string)
    ensures PlusSpaces(PlusSpaces(s)) == PlusSpaces(s)
  {
    PlusSpacesOfNoSpaces(PlusSpaces(s));
  }

  /** A word followed by a run of spaces and more text: the word, one `+`,
      then the rest rewritten. */
  lemma {:induction false} PlusSpacesWord(w: string, gap: string, rest: string)
    requires NoSpaces(w) && |gap| > 0 && (forall i :: 0 <= i < |gap| ==> IsJsSpace(gap[i]))
    requires |rest| > 0 ==> !IsJsSpace(rest[0])
    ensures PlusSpaces(w + gap + rest) == w + "+" + PlusSpaces(rest)
    decreases |w|
  {
    if |w| > 0 {
      var t := w[1..] + gap + rest;
      NoSpacesTail(w);
      PlusSpacesWord(w[1..], gap, rest);
      calc {
        PlusSpaces(w + gap + rest);
        { HeadCons(w, gap, rest); }
        PlusSpaces([w[0]] + t);
        { PlusSpacesCons(w[0], t); }
        [w[0]] + PlusSpaces(t);
        [w[0]] + (w[1..] + "+" + PlusSpaces(rest));
        { HeadCons(w, "+", PlusSpaces(rest)); }
        w + "+" + PlusSpaces(rest);
      }
    } else {
      EmptyPrefix(w, gap);
      EmptyPrefix(w, "+");
      PlusSpacesGap(gap, rest);
    }
  }

  lemma NoSpacesTail(w: string)
    requires NoSpaces(w) && |w| > 0
    ensures !IsJsSpace(w[0]) && NoSpaces(w[1..])
  {
    assert forall i :: 0 <= i < |w[1..]| ==> w[1..][i] == w[i + 1];
  }

  lemma EmptyPrefix(w: string, t: string)
    requires |w| == 0
    ensures w + t == t
  {
  }

  /** A character that is not a space is copied. */
  lemma PlusSpacesCons(c: char, t: string)
    requires !IsJsSpace(c)
    ensures PlusSpaces([c] + t) == [c] + PlusSpaces(t)
  {
    assert ([c] + t)[0] == c && ([c] + t)[1..] == t;
  }

  /** A leading run of spaces becomes one `+`. */
  lemma PlusSpacesGap(gap: string, rest: string)
    requires |gap| > 0 && forall i :: 0 <= i < |gap| ==> IsJsSpace(gap[i])
    requires |rest| > 0 ==> !IsJsSpace(rest[0])
    ensures PlusSpaces(gap + rest) == "+" + PlusSpaces(rest)
  {
    assert (gap + rest)[0] == gap[0];
    DropSpacesOfGap(gap, rest);
  }

  /** A non-empty word is its first character followed by the rest. */
  lemma HeadCons(w: string, p: string, q: string)
    requires |w| > 0
    ensures w + p + q == [w[0]] + (w[1..] + p + q)
  {
    assert w == [w[0]] + w[1..];
  }

  lemma {:induction false} DropSpacesOfGap(gap: string, rest: string)
    requires forall i :: 0 <= i < |gap| ==> IsJsSpace(gap[i])
    requires |rest| > 0 ==> !IsJsSpace(rest[0])
    ensures DropSpaces(gap + rest) == rest
    decreases |gap|
  {
    if |gap| > 0 {
      assert (gap + rest)[1..] == gap[1..] + rest;
      DropSpacesOfGap(gap[1..], rest);
    }
  }

  /** Words separated by single spaces come out separated by `+`. */
  lemma {:induction false} PlusSpacesOfWords(words: seq<string>)
    requires forall k :: 0 <= k < |words| ==> |words[k]| > 0 && NoSpaces(words[k])
    ensures PlusSpaces(Join(words, " ")) == Join(words, "+")
  {
    if |words| == 1 {
      PlusSpacesOfNoSpaces(words[0]);
    } else if |words| > 1 {
      var rest := Join(words[1..], " ");
      PlusSpacesOfWords(words[1..]);
      assert rest[0] == words[1][0] by {
        JoinStartsWithFirst(words[1..], " ");
      }
      PlusSpacesWord(words[0], " ", rest);
    }
  }

  lemma {:induction false} JoinStartsWithFirst(parts: seq<string>, sep: string)
    requires |parts| >= 1
    ensures parts[0] <= Join(parts, sep)
  {
  }

  /** The stylesheet link of an intercepted `WebFont.load`. */
  function FontUrl(families: seq<string>): (r: string)
    ensures FontCssBase <= r
  {
    FontCssBase + Join(seq(|families|, i requires 0 <= i < |families| => PlusSpaces(families[i])), "|")
  }

  /** Each family written without spaces is kept as is. */
  lemma PlainFamiliesKept(families: seq<string>)
    requires forall k :: 0 <= k < |families| ==> NoSpaces(families[k])
    ensures seq(|families|, i requires 0 <= i < |families| => PlusSpaces(families[i])) == families
  {
    var fs := seq(|families|, i requires 0 <= i < |families| => PlusSpaces(families[i]));
    forall k | 0 <= k < |families|
      ensures fs[k] == families[k]
    {
      PlusSpacesOfNoSpaces(families[k]);
    }
  }

  /** Each family's name written from its words. */
  function JoinEach(families: seq<seq<string>>, sep: string): (r: seq<string>)
    ensures |r| == |families|
    ensures forall i :: 0 <= i < |families| ==> r[i] == Join(families[i], sep)
  {
    seq(|families|, i requires 0 <= i < |families| => Join(families[i], sep))
  }

  /** Families whose names are words separated by single spaces are listed
      with `+` between the words and `|` between the families. */
  lemma FontUrlOfSpacedFamilies(families: seq<seq<string>>)
    requires forall k, j :: 0 <= k < |families| && 0 <= j < |families[k]| ==>
      |families[k][j]| > 0 && NoSpaces(families[k][j])
    ensures FontUrl(JoinEach(families, " ")) == FontCssBase + Join(JoinEach(families, "+"), "|")
  {
    var names := JoinEach(families, " ");
    var fs := seq(|names|, i requires 0 <= i < |names| => PlusSpaces(names[i]));
    forall k | 0 <= k < |families|
      ensures fs[k] == JoinEach(families, "+")[k]
    {
      PlusSpacesOfWords(families[k]);
    }
    assert fs == JoinEach(families, "+");
  }

  /** Families without spaces are listed as given, separated by `|`. */
  lemma FontUrlOfPlainFamilies(families: seq<string>)
    requires forall k :: 0 <= k < |families| ==> NoSpaces(families[k])
    ensures FontUrl(families) == FontCssBase + Join(families, "|")
  {
    PlainFamiliesKept(families);
  }
}
