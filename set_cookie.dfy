/**
 * The `Set-Cookie` header text both cookie stores write with
 * `String.format("%s=%s; HttpOnly; SameSite=None; Secure", name, value)`,
 * and, as its inverse, the way a browser splits such a header into a name,
 * a value and the attribute list (section 5.2 of RFC 6265).
 */
module SetCookie {
  import opened Wrappers
  import opened Strings

  /** The attribute list every header written by the stores ends with. */
  const Attributes: string := "; HttpOnly; SameSite=None; Secure"

  /** `%s` applied to a Java string: `null` is written as the four letters "null". */
  function Render(value: Option<string>): (s: string)
  {
    match value
    case None => "null"
    case Some(v) => v
  }

  /** The header text for cookie `name` holding `value`. */
  function HeaderText(name: string, value: Option<string>): (h: string)
    ensures |h| == |name| + 1 + |Render(value)| + |Attributes|
    ensures h[..|name|] == name && h[|name|] == '='
  {
    name + "=" + Render(value) + Attributes
  }

  /** A header split as a browser reads it. */
  datatype Fields = Fields(name: string, value: string, attributes: string)

  /** WSP in the grammar of RFC 5234: space or horizontal tab. */
  predicate IsWsp(c: char)
  {
    c == ' ' || c == '\t'
  }

  /** The number of WSP characters `s` starts with. */
  function LeadingWsp(s: string): (k: nat)
    ensures k <= |s| && (k == |s| || !IsWsp(s[k]))
  {
    if |s| > 0 && IsWsp(s[0]) then 1 + LeadingWsp(s[1..]) else 0
  }

  /** The number of WSP characters `s` ends with. */
  function TrailingWsp(s: string): (k: nat)
    ensures k <= |s| && (k == |s| || !IsWsp(s[|s| - 1 - k]))
    ensures k < |s| ==> forall j :: |s| - k <= j < |s| ==> IsWsp(s[j])
  {
    if |s| > 0 && IsWsp(s[|s| - 1]) then 1 + TrailingWsp(s[..|s| - 1]) else 0
  }

  /** `s` without its leading and trailing WSP. */
  function TrimWsp(s: string): (r: string)
    ensures r == [] || (!IsWsp(r[0]) && !IsWsp(r[|r| - 1]))
  {
    var t := s[LeadingWsp(s)..];
    t[..|t| - TrailingWsp(t)]
  }

  /** Trimming leaves a string alone exactly when it neither starts nor ends with WSP. */
  lemma TrimWspKeeps(s: string)
    ensures TrimWsp(s) == s <==> s == [] || (!IsWsp(s[0]) && !IsWsp(s[|s| - 1]))
  {
    if s != [] && !IsWsp(s[0]) && !IsWsp(s[|s| - 1]) {
      assert LeadingWsp(s) == 0 && s[0..] == s;
      assert TrailingWsp(s) == 0 && s[..|s|] == s;
    }
  }

  /** Trimming only removes characters. */
  lemma NotInTrimWsp(s: string, c: char)
    requires c !in s
    ensures c !in TrimWsp(s)
  {
    var t := s[LeadingWsp(s)..];
    assert c !in t;
  }

  /**
   * Section 5.2 of RFC 6265: the name-value pair runs up to the first `;`,
   * the name up to the first `=` inside it, and both the name and the value
   * lose their leading and trailing WSP; a pair without `=`, or with an
   * empty name, is ignored.
   */
  function Parse(h: string): (r: Option<Fields>)
  {
    var pairEnd := match IndexOf(h, ';') case None => |h| case Some(i) => i;
    var pair := h[..pairEnd];
    match IndexOf(pair, '=')
    case None => None
    case Some(eq) =>
      var name := TrimWsp(pair[..eq]);
      if name == [] then None else Some(Fields(name, TrimWsp(pair[eq + 1..]), h[pairEnd..]))
  }

  /** The name and value cut from a pair without `;` at its first `=`. */
  lemma PairFields(pair: string, eq: nat)
    requires eq < |pair| && ';' !in pair && '=' !in pair[..eq]
    ensures var name, value := TrimWsp(pair[..eq]), TrimWsp(pair[eq + 1..]);
      && (name != [] ==> IsPlainCookieName(name))
      && ';' !in value
  {
    assert ';' !in pair[..eq] && ';' !in pair[eq + 1..];
    NotInTrimWsp(pair[..eq], '=');
    NotInTrimWsp(pair[..eq], ';');
    NotInTrimWsp(pair[eq + 1..], ';');
  }

  /**
   * Whatever the header, a name a browser reads is a plain cookie name, the
   * value holds no `;` and has no WSP at its ends, and the attribute list is
   * empty or starts at a `;`.
   */
  lemma ParsedFields(h: string)
    ensures var r := Parse(h);
      r.Some? ==>
        && IsPlainCookieName(r.value.name) && ';' !in r.value.value
        && (r.value.value == [] || (!IsWsp(r.value.value[0]) && !IsWsp(r.value.value[|r.value.value| - 1])))
        && (r.value.attributes == [] || r.value.attributes[0] == ';')
  {
    var pairEnd := match IndexOf(h, ';') case None => |h| case Some(i) => i;
    var pair := h[..pairEnd];
    assert ';' !in pair;
    match IndexOf(pair, '=')
    case None =>
    case Some(eq) =>
      PairFields(pair, eq);
  }

  /** The header's name-value pair runs up to its first `;`, where the attribute list starts. */
  lemma PairEndsAtFirstSemicolon(name: string, v: string)
    requires ';' !in name && ';' !in v
    ensures var h, k := name + "=" + v + Attributes, |name| + 1 + |v|;
      && k < |h| && h[k] == ';' && h[..k] == name + "=" + v
      && ';' !in h[..k] && h[k..] == Attributes
  {
    var h, k := name + "=" + v + Attributes, |name| + 1 + |v|;
    var pair := name + "=" + v;
    assert h == pair + Attributes;
    assert h[..k] == pair;
    assert h[k..] == Attributes;
    forall i | 0 <= i < k
      ensures pair[i] != ';'
    {
      if i < |name| {
        assert pair[i] == name[i];
      } else if i > |name| {
        assert pair[i] == v[i - |name| - 1];
      }
    }
  }

  /** `Parse` on a header whose first `;` is at `k` and whose first `=` is at `eq`, before it. */
  lemma ParseAt(h: string, k: nat, eq: nat)
    requires k < |h| && h[k] == ';' && ';' !in h[..k]
    requires eq < k && h[eq] == '=' && '=' !in h[..eq]
    ensures Parse(h) == if TrimWsp(h[..eq]) == [] then None else Some(Fields(TrimWsp(h[..eq]), TrimWsp(h[eq + 1..k]), h[k..]))
  {
    IndexOfAt(h, ';', k);
    var pair := h[..k];
    assert pair[..eq] == h[..eq];
    IndexOfAt(pair, '=', eq);
    assert pair[eq + 1..] == h[eq + 1..k];
  }

  /** A cookie name a browser reads back unchanged: non-empty, no `=` or `;`, no WSP at either end. */
  predicate IsPlainCookieName(name: string)
  {
    |name| > 0 && '=' !in name && ';' !in name && !IsWsp(name[0]) && !IsWsp(name[|name| - 1])
  }

  /**
   * Round trip: a browser reading a header written for a plain name and a
   * value without `;` recovers exactly that name, the value without its
   * leading and trailing WSP (so the value itself whenever it has none),
   * and the fixed attribute list.
   */
  lemma {:induction false} ParseHeaderText(name: string, value: Option<string>)
    requires IsPlainCookieName(name) && ';' !in Render(value)
    ensures Parse(HeaderText(name, value)) == Some(Fields(name, TrimWsp(Render(value)), Attributes))
  {
    var v := Render(value);
    var h := HeaderText(name, value);
    var k := |name| + 1 + |v|;
    PairEndsAtFirstSemicolon(name, v);
    assert h[..|name|] == name;
    assert h[|name| + 1..k] == v by {
      assert h[..k][|name| + 1..] == v;
    }
    TrimWspKeeps(name);
    ParseAt(h, k, |name|);
  }

  /**
   * Two headers written for different names are read back under different
   * names, whatever the values: the state and nonce cookies never overwrite
   * each other in the browser.
   */
  lemma DistinctNamesStayDistinct(n1: string, v1: Option<string>, n2: string, v2: Option<string>)
    requires n1 != n2
    requires IsPlainCookieName(n1) && ';' !in Render(v1)
    requires IsPlainCookieName(n2) && ';' !in Render(v2)
    ensures Parse(HeaderText(n1, v1)).Some? && Parse(HeaderText(n2, v2)).Some?
    ensures Parse(HeaderText(n1, v1)).value.name != Parse(HeaderText(n2, v2)).value.name
  {
    ParseHeaderText(n1, v1);
    ParseHeaderText(n2, v2);
  }
}
