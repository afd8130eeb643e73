/**
 * The two ways the configured response type (a space-separated list such as
 * "code", "id_token token" or "code id_token") is split into names:
 * `RequestProcessor.getResponseType` uses `trim().split("\\s+")`, and
 * `AuthorizeUrl.containsFormPost` uses `split(" ")`.
 */
module ResponseType {
  import opened Wrappers
  import opened Strings

  /** The characters of the regular-expression class `\s`. */
  predicate IsWhitespace(c: char)
  {
    c == ' ' || c == '\t' || c == '\n' || c == '\U{0B}' || c == '\U{0C}' || c == '\r'
  }

  /** The characters `String.trim` strips: every code point up to U+0020. */
  predicate IsTrimmable(c: char)
  {
    c <= ' '
  }

  /** A name in a split response type: non-empty, no `\s` inside. */
  predicate IsWord(w: string)
  {
    |w| > 0 && forall j :: 0 <= j < |w| ==> !IsWhitespace(w[j])
  }

  function TrimStart(s: string): (r: string)
    ensures |r| <= |s| && r == s[|s| - |r|..]
    ensures forall j :: 0 <= j < |s| - |r| ==> IsTrimmable(s[j])
    ensures r == [] || !IsTrimmable(r[0])
  {
    if |s| > 0 && IsTrimmable(s[0]) then TrimStart(s[1..]) else s
  }

  function TrimEnd(s: string): (r: string)
    ensures |r| <= |s| && r == s[..|r|]
    ensures forall j :: |r| <= j < |s| ==> IsTrimmable(s[j])
    ensures r == [] || !IsTrimmable(r[|r| - 1])
  {
    if |s| > 0 && IsTrimmable(s[|s| - 1]) then TrimEnd(s[..|s| - 1]) else s
  }

  /** `String.trim`: `s` without its leading and trailing characters up to U+0020. */
  function Trim(s: string): (r: string)
    ensures r == [] || (!IsTrimmable(r[0]) && !IsTrimmable(r[|r| - 1]))
  {
    TrimEnd(TrimStart(s))
  }

  /** The length of the run of non-`\s` characters `s` starts with. */
  function WordLen(s: string): (k: nat)
    ensures k <= |s|
    ensures forall i :: 0 <= i < k ==> !IsWhitespace(s[i])
    ensures k == |s| || IsWhitespace(s[k])
  {
    if |s| == 0 || IsWhitespace(s[0]) then 0 else 1 + WordLen(s[1..])
  }

  /**
   * The maximal runs of non-`\s` characters of `s`, in order: what
   * `split("\\s+")` yields for a string that neither starts nor ends with `\s`.
   */
  function Words(s: string): (ws: seq<string>)
    ensures forall i :: 0 <= i < |ws| ==> IsWord(ws[i])
    decreases |s|
  {
    if |s| == 0 then []
    else if IsWhitespace(s[0]) then Words(s[1..])
    else
      var k := WordLen(s);
      [s[..k]] + Words(s[k..])
  }

  /**
   * `getResponseType`: the response type trimmed and split on runs of `\s`.
   * A blank response type gives the one empty name (Java's `"".split` gives
   * `[""]`); any other gives its words.
   */
  function GetResponseType(responseType: string): (r: seq<string>)
    ensures |r| >= 1
    ensures Trim(responseType) == [] <==> r == [""]
    ensures Trim(responseType) != [] ==> forall i :: 0 <= i < |r| ==> IsWord(r[i])
  {
    var t := Trim(responseType);
    if t == [] then [""]
    else
      assert !IsWhitespace(t[0]);
      assert |Words(t)| > 0 && IsWord(Words(t)[0]);
      Words(t)
  }

  /** `buildAuthorizeUrl`'s test for asking the provider to answer with a form POST: the response type names `token` or `id_token`. */
  predicate RequestsFormPost(responseType: string)
  {
    var types := GetResponseType(responseType);
    "token" in types || "id_token" in types
  }

  /** Every piece of `s` between separators, empty ones included. */
  function SplitAll(s: string, sep: char): (r: seq<string>)
    ensures |r| >= 1
    decreases |s|
  {
    match IndexOf(s, sep)
    case None => [s]
    case Some(i) => [s[..i]] + SplitAll(s[i + 1..], sep)
  }

  function DropTrailingEmpty(pieces: seq<string>): (r: seq<string>)
    ensures r <= pieces
    ensures r == [] || r[|r| - 1] != ""
  {
    if |pieces| > 0 && pieces[|pieces| - 1] == "" then DropTrailingEmpty(pieces[..|pieces| - 1])
    else pieces
  }

  /** `String.split` on a one-character pattern: the input itself when the separator is absent, otherwise the pieces without the trailing empty ones. */
  function JavaSplit(s: string, sep: char): (r: seq<string>)
  {
    if sep !in s then [s] else DropTrailingEmpty(SplitAll(s, sep))
  }

  /** `containsFormPost`: the response type split on single spaces names `id_token`. */
  predicate ContainsFormPost(responseType: string)
  {
    "id_token" in JavaSplit(responseType, ' ')
  }

  /** The canonical way to write a list of names as one response type. */
  function JoinWithSpace(ws: seq<string>): (s: string)
  {
    if |ws| == 0 then ""
    else if |ws| == 1 then ws[0]
    else ws[0] + " " + JoinWithSpace(ws[1..])
  }

  /** A name that neither split nor trim can cut: every character above U+0020. */
  predicate IsPlainName(w: string)
  {
    |w| > 0 && forall j :: 0 <= j < |w| ==> !IsTrimmable(w[j])
  }

  lemma PlainNameIsWord(w: string)
    requires IsPlainName(w)
    ensures IsWord(w) && ' ' !in w
  {
  }

  lemma {:induction false} WordLenOfWordThenSpace(w: string, rest: string)
    requires IsWord(w)
    ensures WordLen(w + " " + rest) == |w|
    ensures WordLen(w) == |w|
    decreases |w|
  {
    if |w| > 1 {
      assert (w + " " + rest)[1..] == w[1..] + " " + rest;
      WordLenOfWordThenSpace(w[1..], rest);
    }
  }

  /** Splitting a space-joined list of words on whitespace runs gives the list back. */
  lemma {:induction false} WordsOfJoin(ws: seq<string>)
    requires forall i :: 0 <= i < |ws| ==> IsWord(ws[i])
    ensures Words(JoinWithSpace(ws)) == ws
    decreases |ws|
  {
    if |ws| == 1 {
      var w := ws[0];
      WordLenOfWordThenSpace(w, "");
      assert w[|w|..] == [];
      assert w[..|w|] == w;
    } else if |ws| > 1 {
      var w, rest := ws[0], JoinWithSpace(ws[1..]);
      var s := w + " " + rest;
      WordLenOfWordThenSpace(w, rest);
      assert s[..|w|] == w;
      assert s[|w|..] == " " + rest;
      assert (" " + rest)[1..] == rest;
      WordsOfJoin(ws[1..]);
    }
  }

  lemma {:induction false} JoinOfPlainNames(ws: seq<string>)
    requires |ws| > 0 && forall i :: 0 <= i < |ws| ==> IsPlainName(ws[i])
    ensures var s := JoinWithSpace(ws);
      |s| > 0 && !IsTrimmable(s[0]) && !IsTrimmable(s[|s| - 1])
    decreases |ws|
  {
    if |ws| > 1 {
      JoinOfPlainNames(ws[1..]);
    }
  }

  /**
   * Round trip: the response type written as single-space-separated plain
   * names is read back by `getResponseType` as exactly those names.
   */
  lemma GetResponseTypeOfJoin(ws: seq<string>)
    requires |ws| > 0 && forall i :: 0 <= i < |ws| ==> IsPlainName(ws[i])
    ensures GetResponseType(JoinWithSpace(ws)) == ws
  {
    var s := JoinWithSpace(ws);
    JoinOfPlainNames(ws);
    assert TrimStart(s) == s;
    assert TrimEnd(s) == s;
    forall i | 0 <= i < |ws| ensures IsWord(ws[i]) { PlainNameIsWord(ws[i]); }
    WordsOfJoin(ws);
  }

  /** A run of one or more `\s` characters, which `split("\\s+")` consumes as one separator. */
  predicate IsSeparator(sep: string)
  {
    |sep| > 0 && forall j :: 0 <= j < |sep| ==> IsWhitespace(sep[j])
  }

  /** Padding `String.trim` removes. */
  predicate AllTrimmable(s: string)
  {
    forall j :: 0 <= j < |s| ==> IsTrimmable(s[j])
  }

  /** The names `ws` written one after another with `seps[i]` between `ws[i]` and `ws[i + 1]`. */
  function JoinWith(ws: seq<string>, seps: seq<string>): (s: string)
    requires |ws| == |seps| + 1
    decreases |ws|
  {
    if |ws| == 1 then ws[0] else ws[0] + seps[0] + JoinWith(ws[1..], seps[1..])
  }

  lemma {:induction false} WordLenOfWordThen(w: string, rest: string)
    requires IsWord(w) && (rest == [] || IsWhitespace(rest[0]))
    ensures WordLen(w + rest) == |w|
    decreases |w|
  {
    assert (w + rest)[0] == w[0];
    if |w| > 1 {
      assert (w + rest)[1..] == w[1..] + rest;
      WordLenOfWordThen(w[1..], rest);
    } else {
      assert (w + rest)[1..] == rest;
    }
  }

  lemma {:induction false} WordsSkipsSeparator(sep: string, rest: string)
    requires forall j :: 0 <= j < |sep| ==> IsWhitespace(sep[j])
    ensures Words(sep + rest) == Words(rest)
    decreases |sep|
  {
    if |sep| > 0 {
      assert (sep + rest)[1..] == sep[1..] + rest;
      WordsSkipsSeparator(sep[1..], rest);
    } else {
      assert sep + rest == rest;
    }
  }

  /** Splitting words joined by any runs of `\s` on those runs gives the words back. */
  lemma {:induction false} WordsOfJoinWith(ws: seq<string>, seps: seq<string>)
    requires |ws| == |seps| + 1
    requires forall i :: 0 <= i < |ws| ==> IsWord(ws[i])
    requires forall i :: 0 <= i < |seps| ==> IsSeparator(seps[i])
    ensures Words(JoinWith(ws, seps)) == ws
    decreases |ws|
  {
    var w := ws[0];
    if |ws| == 1 {
      WordLenOfWordThen(w, []);
      assert w + [] == w;
      assert w[..|w|] == w;
      assert w[|w|..] == [];
    } else {
      var rest := JoinWith(ws[1..], seps[1..]);
      var tail := seps[0] + rest;
      var s := w + tail;
      assert JoinWith(ws, seps) == s;
      WordLenOfWordThen(w, tail);
      assert s[..|w|] == w;
      assert s[|w|..] == tail;
      WordsSkipsSeparator(seps[0], rest);
      WordsOfJoinWith(ws[1..], seps[1..]);
    }
  }

  lemma {:induction false} JoinWithEnds(ws: seq<string>, seps: seq<string>)
    requires |ws| == |seps| + 1 && forall i :: 0 <= i < |ws| ==> IsPlainName(ws[i])
    ensures var s := JoinWith(ws, seps);
      |s| > 0 && !IsTrimmable(s[0]) && !IsTrimmable(s[|s| - 1])
    decreases |ws|
  {
    var w := ws[0];
    assert IsPlainName(w);
    if |ws| > 1 {
      var rest := JoinWith(ws[1..], seps[1..]);
      JoinWithEnds(ws[1..], seps[1..]);
      var s := w + seps[0] + rest;
      assert s[0] == w[0];
      assert s[|s| - 1] == rest[|rest| - 1];
    }
  }

  lemma {:induction false} TrimStartOfPadded(lead: string, s: string)
    requires AllTrimmable(lead) && |s| > 0 && !IsTrimmable(s[0])
    ensures TrimStart(lead + s) == s
    decreases |lead|
  {
    if |lead| > 0 {
      assert (lead + s)[1..] == lead[1..] + s;
      TrimStartOfPadded(lead[1..], s);
    } else {
      assert lead + s == s;
    }
  }

  lemma {:induction false} TrimEndOfPadded(s: string, trail: string)
    requires AllTrimmable(trail) && |s| > 0 && !IsTrimmable(s[|s| - 1])
    ensures TrimEnd(s + trail) == s
    decreases |trail|
  {
    if |trail| > 0 {
      assert (s + trail)[..|s + trail| - 1] == s + trail[..|trail| - 1];
      TrimEndOfPadded(s, trail[..|trail| - 1]);
    } else {
      assert s + trail == s;
    }
  }

  /**
   * Round trip in general: plain names separated by any runs of `\s`, with
   * any leading and trailing padding `String.trim` strips, are read back by
   * `getResponseType` as exactly those names.
   */
  lemma GetResponseTypeOfPadded(lead: string, ws: seq<string>, seps: seq<string>, trail: string)
    requires |ws| == |seps| + 1 && forall i :: 0 <= i < |ws| ==> IsPlainName(ws[i])
    requires forall i :: 0 <= i < |seps| ==> IsSeparator(seps[i])
    requires AllTrimmable(lead) && AllTrimmable(trail)
    ensures GetResponseType(lead + JoinWith(ws, seps) + trail) == ws
  {
    var mid := JoinWith(ws, seps);
    JoinWithEnds(ws, seps);
    assert lead + mid + trail == lead + (mid + trail);
    TrimStartOfPadded(lead, mid + trail);
    TrimEndOfPadded(mid, trail);
    forall i | 0 <= i < |ws| ensures IsWord(ws[i]) { PlainNameIsWord(ws[i]); }
    WordsOfJoinWith(ws, seps);
  }

  lemma {:induction false} SplitAllOfJoin(ws: seq<string>)
    requires |ws| > 0 && forall i :: 0 <= i < |ws| ==> IsPlainName(ws[i])
    ensures SplitAll(JoinWithSpace(ws), ' ') == ws
    decreases |ws|
  {
    PlainNameIsWord(ws[0]);
    if |ws| == 1 {
    } else {
      var w, rest := ws[0], JoinWithSpace(ws[1..]);
      var s := w + " " + rest;
      assert s[..|w|] == w;
      IndexOfAt(s, ' ', |w|);
      assert s[|w| + 1..] == rest;
      SplitAllOfJoin(ws[1..]);
    }
  }

  /** Round trip for `containsFormPost`'s split: single-space-joined plain names split back into those names. */
  lemma JavaSplitOfJoin(ws: seq<string>)
    requires |ws| > 0 && forall i :: 0 <= i < |ws| ==> IsPlainName(ws[i])
    ensures JavaSplit(JoinWithSpace(ws), ' ') == ws
  {
    SplitAllOfJoin(ws);
    if ' ' in JoinWithSpace(ws) {
      assert ws[|ws| - 1] != "";
    }
  }

  /**
   * On a response type written the canonical way the two tokenisers agree:
   * `containsFormPost` holds exactly when `getResponseType` names `id_token`.
   */
  lemma FormPostAgreesOnCanonicalResponseType(ws: seq<string>)
    requires |ws| > 0 && forall i :: 0 <= i < |ws| ==> IsPlainName(ws[i])
    ensures ContainsFormPost(JoinWithSpace(ws)) <==> "id_token" in GetResponseType(JoinWithSpace(ws))
  {
    JavaSplitOfJoin(ws);
    GetResponseTypeOfJoin(ws);
  }

  /**
   * Otherwise they can disagree: a response type with a trailing newline
   * names `id_token` for the processor, but not for `containsFormPost`.
   */
  lemma FormPostDivergesOnTrailingNewline()
    ensures "id_token" in GetResponseType("id_token\n")
    ensures !ContainsFormPost("id_token\n")
  {
    var s := "id_token\n";
    assert TrimStart(s) == s;
    assert s[..|s| - 1] == "id_token";
    assert TrimEnd("id_token") == "id_token";
    assert Trim(s) == "id_token";
    assert IsPlainName("id_token");
    GetResponseTypeOfJoin(["id_token"]);
    assert ' ' !in s;
  }
}
