/** Small string utilities used to state how the drafted text can be read back:
    an optional value, the first position of a character, splitting at it, and
    removing a known prefix. */
module Text {

  datatype Option<+T> = None | Some(value: T) {
    predicate IsFailure() { None? }

    function PropagateFailure<U>(): Option<U>
      requires None?
    {
      None
    }

    function Extract(): T
      requires Some?
    {
      value
    }
  }

  /** Position of the first occurrence of `c` in `s`, if there is one. */
  function IndexOf(s: string, c: char): (r: Option<nat>)
    ensures r.Some? ==> r.value < |s| && s[r.value] == c && c !in s[..r.value]
    ensures r.None? <==> c !in s
  {
    if s == [] then None
    else if s[0] == c then Some(0)
    else
      match IndexOf(s[1..], c)
      case None => None
      case Some(i) =>
        assert s[..i + 1] == [s[0]] + s[1..][..i];
        Some(i + 1)
  }

  /** Splits `s` at the first `c`: the text before it and the text after it. */
  function SplitAt(s: string, c: char): (r: Option<(string, string)>)
    ensures r.None? <==> c !in s
    ensures r.Some? ==> s == r.value.0 + [c] + r.value.1 && c !in r.value.0
  {
    match IndexOf(s, c)
    case None => None
    case Some(i) =>
      assert s == s[..i] + [c] + s[i + 1..];
      Some((s[..i], s[i + 1..]))
  }

  /** `s` without its prefix `p`, when `s` starts with `p`. */
  function StripPrefix(s: string, p: string): (r: Option<string>)
    ensures r.Some? <==> p <= s
    ensures r.Some? ==> s == p + r.value
  {
    if p <= s then Some(s[|p|..]) else None
  }

  /** Splitting a text at a character that does not occur before a given one
      finds exactly that one. */
  lemma SplitAtFirst(a: string, c: char, b: string)
    requires c !in a
    ensures SplitAt(a + [c] + b, c) == Some((a, b))
  {
    var s := a + [c] + b;
    var r := SplitAt(s, c);
    assert s[|a|] == c;
    var x, y := r.value.0, r.value.1;
    assert x == s[..|a|] == a;
    assert y == s[|a| + 1..] == b;
  }

  lemma StripPrefixOf(p: string, t: string)
    ensures StripPrefix(p + t, p) == Some(t)
  {
    assert p <= p + t;
    assert (p + t)[|p|..] == t;
  }

  lemma ConcatAssoc(a: string, b: string, c: string)
    ensures a + b + c == a + (b + c)
  {
  }

  /** A text that ends in `c` is the rest of it followed by `c`. */
  lemma LastChar(s: string, c: char)
    requires |s| >= 1 && s[|s| - 1] == c
    ensures s == s[..|s| - 1] + [c]
  {
  }
}
