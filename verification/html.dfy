/**
  * The two text helpers of the report: `split_indent`, which separates a line's
  * indentation from its body, and `html_escape`, which makes text safe to place in HTML.
  */
module Html {
  import opened Common
  import Text

  /** The position of the first character of `s` that is not white space. */
  function FirstNonWhitespace(s: string): (r: Option<nat>)
    ensures r.Some? ==> r.value < |s| && !Text.IsWhitespace(s[r.value])
    ensures r.Some? ==> forall i :: 0 <= i < r.value ==> Text.IsWhitespace(s[i])
    ensures r.None? ==> forall i :: 0 <= i < |s| ==> Text.IsWhitespace(s[i])
  {
    if s == [] then None
    else if !Text.IsWhitespace(s[0]) then Some(0)
    else match FirstNonWhitespace(s[1..])
      case None => None
      case Some(i) => Some(i + 1)
  }

  /**
    * `split_indent`: the line cut before its first character that is not white space; a
    * line of white space only is all body and no indentation.
    */
  function SplitIndent(line: string): (r: (string, string))
    ensures r.0 + r.1 == line
    ensures forall i :: 0 <= i < |r.0| ==> Text.IsWhitespace(r.0[i])
    ensures (exists i :: 0 <= i < |line| && !Text.IsWhitespace(line[i])) ==>
      r.1 != [] && !Text.IsWhitespace(r.1[0])
    ensures (forall i :: 0 <= i < |line| ==> Text.IsWhitespace(line[i])) ==> r == ("", line)
  {
    match FirstNonWhitespace(line)
    case Some(p) =>
      SplitAt(line, p);
      (line[..p], line[p..])
    case None => ("", line)
  }

  predicate IsSpecial(c: char) { c == '<' || c == '>' || c == '&' }

  function EscapeChar(c: char): string {
    if c == '<' then "&lt;" else if c == '>' then "&gt;" else if c == '&' then "&amp;" else [c]
  }

  /** The escaped form of `s`: each `<`, `>` and `&` replaced by its entity, all else kept in order. */
  function Escaped(s: string): string {
    if s == [] then [] else EscapeChar(s[0]) + Escaped(s[1..])
  }

  /** The inverse of escaping: the three entities decoded, every other character kept. */
  function Unescape(s: string): string {
    if s == [] then []
    else if Text.StartsWith(s, "&lt;") then "<" + Unescape(s[4..])
    else if Text.StartsWith(s, "&gt;") then ">" + Unescape(s[4..])
    else if Text.StartsWith(s, "&amp;") then "&" + Unescape(s[5..])
    else [s[0]] + Unescape(s[1..])
  }

  lemma {:induction false} EscapedAppend(a: string, b: string)
    ensures Escaped(a + b) == Escaped(a) + Escaped(b)
    decreases |a|
  {
    if a == [] {
      assert a + b == b;
    } else {
      assert (a + b)[0] == a[0] && (a + b)[1..] == a[1..] + b;
      EscapedAppend(a[1..], b);
    }
  }

  /** Text without `<`, `>` and `&` escapes to itself. */
  lemma {:induction false} EscapedPlain(s: string)
    requires forall i :: 0 <= i < |s| ==> !IsSpecial(s[i])
    ensures Escaped(s) == s
    decreases |s|
  {
    if s != [] {
      EscapedPlain(s[1..]);
    }
  }

  /** Escaped text holds no `<` and no `>`. */
  lemma {:induction false} EscapedHasNoAngles(s: string)
    ensures '<' !in Escaped(s) && '>' !in Escaped(s)
    decreases |s|
  {
    if s != [] {
      EscapedHasNoAngles(s[1..]);
    }
  }

  /** Decoding the entities gives back the original text. */
  lemma {:induction false} UnescapeEscaped(s: string)
    ensures Unescape(Escaped(s)) == s
    decreases |s|
  {
    if s != [] {
      UnescapeEscaped(s[1..]);
      UnescapeEscapeChar(s[0], Escaped(s[1..]));
      assert s == [s[0]] + s[1..];
    }
  }

  /** Decoding reads one escaped character back and goes on with the text after it. */
  lemma UnescapeEscapeChar(c: char, rest: string)
    ensures Unescape(EscapeChar(c) + rest) == [c] + Unescape(rest)
  {
    if c == '<' {
      UnescapeEntity("&lt;", rest);
    } else if c == '>' {
      UnescapeEntity("&gt;", rest);
    } else if c == '&' {
      UnescapeEntity("&amp;", rest);
    } else {
      UnescapePlain(c, rest);
    }
  }

  /** An entity at the front is decoded, and decoding goes on after it. */
  lemma UnescapeEntity(entity: string, rest: string)
    requires entity == "&lt;" || entity == "&gt;" || entity == "&amp;"
    ensures Unescape(entity + rest)
      == (if entity == "&lt;" then "<" else if entity == "&gt;" then ">" else "&") + Unescape(rest)
  {
    var e := entity + rest;
    assert e[..|entity|] == entity;
    assert e[|entity|..] == rest;
    assert e[1] == entity[1];
  }

  /** A character that starts no entity is kept, and decoding goes on after it. */
  lemma UnescapePlain(c: char, rest: string)
    requires !IsSpecial(c)
    ensures Unescape([c] + rest) == [c] + Unescape(rest)
  {
    var e := [c] + rest;
    assert e[0] == c && e[1..] == rest;
  }

  /** Escaping a prefix that ends in plain text and then one more character. */
  lemma {:induction false} EscapedStep(s: string, last: nat, i: nat)
    requires last <= i <= |s|
    requires forall k :: last <= k < i ==> !IsSpecial(s[k])
    ensures Escaped(s[..i]) == Escaped(s[..last]) + s[last..i]
    ensures i < |s| ==> Escaped(s[..i + 1]) == Escaped(s[..last]) + s[last..i] + EscapeChar(s[i])
  {
    var gap := s[last..i];
    EscapedPlain(gap);
    PrefixThenSlice(s, last, i);
    EscapedAppend(s[..last], gap);
    if i < |s| {
      assert s[..i] + [s[i]] == s[..i + 1];
      EscapedAppend(s[..i], [s[i]]);
      assert Escaped([s[i]]) == EscapeChar(s[i]) + Escaped([]);
    }
  }

  /**
    * `html_escape`: when no `<`, `>` or `&` occurs the input comes back as it is;
    * otherwise the text between consecutive matches is copied and each match is replaced
    * by its entity.
    */
  method HtmlEscape(input: string) returns (output: string)
    ensures output == Escaped(input)
    ensures (forall i :: 0 <= i < |input| ==> !IsSpecial(input[i])) ==> output == input
  {
    if forall i :: 0 <= i < |input| ==> !IsSpecial(input[i]) {
      EscapedPlain(input);
      return input;
    }
    output := "";
    var last := 0;
    var i := 0;
    while i < |input|
      invariant 0 <= last <= i <= |input|
      invariant output == Escaped(input[..last])
      invariant forall k :: last <= k < i ==> !IsSpecial(input[k])
    {
      if IsSpecial(input[i]) {
        EscapedStep(input, last, i);
        output := output + input[last..i] + EscapeChar(input[i]);
        last := i + 1;
      }
      i := i + 1;
    }
    EscapedStep(input, last, |input|);
    WholeSlice(input);
    output := output + input[last..];
  }
}
