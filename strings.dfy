/** Character search over Java strings, shared by the header parser and `String.split`. */
module Strings {
  import opened Wrappers

  /** The position of the first `c` in `s`, if any (`String.indexOf`, -1 being `None`). */
  function IndexOf(s: string, c: char): (r: Option<nat>)
    ensures r.None? <==> c !in s
    ensures r.Some? ==> r.value < |s| && s[r.value] == c && c !in s[..r.value]
  {
    if |s| == 0 then None
    else if s[0] == c then Some(0)
    else match IndexOf(s[1..], c)
      case None => None
      case Some(i) =>
        assert s[..i + 1] == [s[0]] + s[1..][..i];
        Some(i + 1)
  }

  /** The position `IndexOf` returns is the first occurrence, so it is determined by it. */
  lemma IndexOfAt(s: string, c: char, k: nat)
    requires k < |s| && s[k] == c && c !in s[..k]
    ensures IndexOf(s, c) == Some(k)
  {
    assert s[k] in s;
    var r := IndexOf(s, c);
    assert s[..r.value + 1][r.value] == c;
    assert s[..k + 1][k] == c;
  }
}
