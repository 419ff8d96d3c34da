/**
  * `get_code`: the snippet of source shown with a finding, the lines around the
  * finding's start and end lines, each followed by a newline.
  */
module Snippets {
  import Text

  /** The lines, each followed by `"\n"`, in order. */
  function JoinLines(ls: seq<string>): string {
    if ls == [] then "" else JoinLines(ls[..|ls| - 1]) + ls[|ls| - 1] + "\n"
  }

  lemma {:induction false} JoinLinesAppend(a: seq<string>, b: seq<string>)
    ensures JoinLines(a + b) == JoinLines(a) + JoinLines(b)
    decreases |b|
  {
    if b == [] {
      assert a + b == a;
    } else {
      assert (a + b)[..|a + b| - 1] == a + b[..|b| - 1];
      JoinLinesAppend(a, b[..|b| - 1]);
    }
  }

  /** The test a line passes, besides lying before `e + 5`, to be copied. */
  predicate Selected(i: nat, s: nat, e: nat) {
    (s >= 5 && i > s - 5) || (s < 5 && i < s + 5)
  }

  /** The text `get_code` has built after the first `n` lines of `ls`. */
  function Snippet(ls: seq<string>, n: nat, s: nat, e: nat): string
    requires n <= |ls|
  {
    if n == 0 then ""
    else Snippet(ls, n - 1, s, e) + (if n - 1 < e + 5 && Selected(n - 1, s, e) then ls[n - 1] + "\n" else "")
  }

  /** Lines from `e + 5` on add nothing, which is why the loop may stop there. */
  lemma {:induction false} SnippetStops(ls: seq<string>, n: nat, m: nat, s: nat, e: nat)
    requires e + 5 <= n <= m <= |ls|
    ensures Snippet(ls, m, s, e) == Snippet(ls, n, s, e)
    decreases m
  {
    if m > n {
      SnippetStops(ls, n, m - 1, s, e);
    }
  }

  /**
    * `get_code`: walks the lines of `code` in order, stops at line `e_line + 5`, and copies
    * each selected line followed by `"\n"`.
    */
  method GetCode(code: string, s: nat, e: nat) returns (result: string)
    ensures result == Snippet(Text.Lines(code), |Text.Lines(code)|, s, e)
  {
    var ls := Text.Lines(code);
    result := "";
    var i := 0;
    while i < |ls|
      invariant 0 <= i <= |ls|
      invariant result == Snippet(ls, i, s, e)
    {
      if i >= e + 5 {
        SnippetStops(ls, i, |ls|, s, e);
        return;
      } else if Selected(i, s, e) {
        result := result + ls[i] + "\n";
      }
      i := i + 1;
    }
  }

  /** The first line copied: four before the start line, or the first line of all. */
  function WindowStart(s: nat): nat {
    if s >= 5 then s - 4 else 0
  }

  /** One past the last line copied, as written: bounded by `s + 5` when `s < 5`. */
  function WindowEnd(s: nat, e: nat): nat {
    if s >= 5 then e + 5 else if s + 5 < e + 5 then s + 5 else e + 5
  }

  function Min(a: nat, b: nat): nat { if a < b then a else b }

  function Max(a: nat, b: nat): nat { if a < b then b else a }

  /**
    * The snippet is exactly the lines from `WindowStart` up to `WindowEnd`, in their
    * original order, each followed by `"\n"`; nothing from `e + 5` on is ever copied.
    */
  lemma {:induction false} SnippetIsWindow(ls: seq<string>, n: nat, s: nat, e: nat)
    requires n <= |ls|
    ensures var lo := Min(WindowStart(s), n);
            Snippet(ls, n, s, e) == JoinLines(ls[lo..Max(lo, Min(WindowEnd(s, e), n))])
    ensures WindowEnd(s, e) <= e + 5
    decreases n
  {
    if n > 0 {
      SnippetIsWindow(ls, n - 1, s, e);
      var lo := Min(WindowStart(s), n - 1);
      var hi := Max(lo, Min(WindowEnd(s, e), n - 1));
      var i := n - 1;
      assert i < e + 5 && Selected(i, s, e) <==> WindowStart(s) <= i < WindowEnd(s, e);
      if WindowStart(s) <= i < WindowEnd(s, e) {
        assert lo == WindowStart(s) && hi == i;
        JoinLinesNext(ls, lo, i);
      }
    }
  }

  /** Joining a window of lines one line longer. */
  lemma JoinLinesNext(ls: seq<string>, lo: nat, i: nat)
    requires lo <= i < |ls|
    ensures JoinLines(ls[lo..i + 1]) == JoinLines(ls[lo..i]) + ls[i] + "\n"
  {
    assert ls[lo..i + 1] == ls[lo..i] + [ls[i]];
    JoinLinesAppend(ls[lo..i], [ls[i]]);
    assert JoinLines([ls[i]]) == JoinLines([]) + ls[i] + "\n";
  }

  /** The cases of the unit tests, for any text of fifteen lines like the one they use. */
  lemma GetCodeExamples(ls: seq<string>)
    requires |ls| == 15
    ensures Snippet(ls, 15, 1, 1) == JoinLines(ls[..6])
    ensures Snippet(ls, 15, 13, 13) == JoinLines(ls[9..])
    ensures Snippet(ls, 15, 7, 7) == JoinLines(ls[3..12])
    ensures Snippet(ls, 15, 7, 9) == JoinLines(ls[3..14])
  {
    SnippetIsWindow(ls, 15, 1, 1);
    SnippetIsWindow(ls, 15, 13, 13);
    assert ls[9..15] == ls[9..];
    SnippetIsWindow(ls, 15, 7, 7);
    SnippetIsWindow(ls, 15, 7, 9);
  }

  /**
    * As written, a finding that starts before line 5 and ends after it loses its own later
    * lines: for a start at line 2 and an end at line 10, only lines 0 to 6 are copied.
    */
  lemma GetCodeDropsFindingLines(ls: seq<string>)
    requires |ls| == 15
    ensures Snippet(ls, 15, 2, 10) == JoinLines(ls[..7])
    ensures Snippet(ls, 15, 2, 10) != IntendedSnippet(ls, 2, 10)
  {
    SnippetIsWindow(ls, 15, 2, 10);
    assert ls[..15] == ls[..7] + ls[7..15];
    JoinLinesAppend(ls[..7], ls[7..15]);
    assert ls[7..15] == ls[7..14] + [ls[14]];
    JoinLinesAppend(ls[7..14], [ls[14]]);
    assert JoinLines([ls[14]]) == JoinLines([]) + ls[14] + "\n";
    assert |JoinLines(ls[..15])| > |JoinLines(ls[..7])|;
  }

  /**
    * The intended snippet: the lines from four before the start line (or the first line)
    * up to four after the end line.
    */
  function IntendedSnippet(ls: seq<string>, s: nat, e: nat): (r: string)
  {
    var lo := Min(WindowStart(s), |ls|);
    JoinLines(ls[lo..Max(lo, Min(e + 5, |ls|))])
  }

  /**
    * The intended snippet runs from no later than the start line up to four lines past the
    * end line, so it holds every line of the finding; it agrees with the code as written
    * whenever the start line is at least 5 or the finding is a single line.
    */
  lemma {:induction false} IntendedSnippetCoversFinding(ls: seq<string>, s: nat, e: nat)
    requires s <= e
    ensures WindowStart(s) <= s
    ensures IntendedSnippet(ls, s, e) == JoinLines(ls[Min(WindowStart(s), |ls|)..Min(e + 5, |ls|)])
    ensures s >= 5 || s == e ==> IntendedSnippet(ls, s, e) == Snippet(ls, |ls|, s, e)
  {
    SnippetIsWindow(ls, |ls|, s, e);
  }
}
