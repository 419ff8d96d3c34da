/**
  * The analysis of the native libraries of the application: every `.so` file under
  * `lib/<architecture>/` has its `.rodata` section cut into zero-terminated strings, and
  * every rule that applies to the library is searched for in every non-empty string.
  *
  * Reading the ELF file is done by the `elf` crate and decoding UTF-8 by the standard
  * library, neither of which is part of this model: the section a library holds (`None`
  * where the file or the section cannot be read, which aborts the program) and the
  * decoding of a byte string are given as functions.
  */
module BinaryAnalysis {
  import opened Common
  import opened Criticalities
  import opened Vulnerabilities
  import opened CodeRules
  import opened ResultsStore
  import Text
  import Paths
  import L = ManifestLoading
  import CodeAnalysis

  /** `u8`. */
  type Byte = b: int | 0 <= b < 256

  // ----- The string table -----

  /** The position of the first zero byte, if any. */
  function FirstZero(data: seq<Byte>): (r: Option<nat>)
    ensures r.Some? ==> r.value < |data| && data[r.value] == 0 && 0 !in data[..r.value]
    ensures r.None? <==> 0 !in data
  {
    if data == [] then None
    else if data[0] == 0 then Some(0)
    else match FirstZero(data[1..])
      case None => None
      case Some(i) =>
        assert data[..i + 1] == [data[0]] + data[1..][..i];
        Some(i + 1)
  }

  /** Cutting at the first zero byte. */
  lemma SegmentsAt(data: seq<Byte>, i: nat)
    requires FirstZero(data) == Some(i)
    ensures Segments(data) == [data[..i]] + Segments(data[i + 1..])
  {
  }

  /** Slicing a concatenation within its left part, stated once for any element type. */
  lemma SliceConcat<T>(x: seq<T>, y: seq<T>, i: nat)
    requires i <= |x|
    ensures (x + y)[..i] == x[..i] && (x + y)[i..] == x[i..] + y
  {
  }

  /** What is in a non-empty sequence is in all but its last element, or is that element. */
  lemma InInitOrLast<T>(x: seq<T>, y: T)
    requires x != []
    ensures y in x <==> y in x[..|x| - 1] || y == x[|x| - 1]
  {
    if y in x {
      var k :| 0 <= k < |x| && x[k] == y;
      if k < |x| - 1 {
        assert x[..|x| - 1][k] == y;
      }
    }
  }

  /** A sequence around one of its positions, stated once for any element type. */
  lemma SplitAround<T>(x: seq<T>, i: nat)
    requires i < |x|
    ensures x == x[..i] + [x[i]] + x[i + 1..]
  {
  }

  /** A common head keeps a prefix a prefix, stated once for any element type. */
  lemma PrefixAfterHead<T>(h: seq<T>, r: seq<T>, x: seq<T>)
    requires r <= x
    ensures h + r <= h + x && (h + x)[|h + r|..] == x[|r|..]
  {
    assert (h + x)[..|h + r|] == h + x[..|r|];
  }

  /** Writing back a first segment. */
  lemma RejoinCons(s: seq<Byte>, segs: seq<seq<Byte>>)
    ensures Rejoin([s] + segs) == s + [0] + Rejoin(segs)
  {
    assert ([s] + segs)[1..] == segs;
  }

  /** A zero byte with none before it is the first. */
  lemma FirstZeroAt(data: seq<Byte>, i: nat)
    requires i < |data| && data[i] == 0 && 0 !in data[..i]
    ensures FirstZero(data) == Some(i)
  {
  }

  /**
    * The zero-terminated byte strings of `data`, in order and without their zero: one per
    * zero byte, holding the bytes since the previous zero byte or the start.
    */
  function Segments(data: seq<Byte>): (segs: seq<seq<Byte>>)
    ensures forall k :: 0 <= k < |segs| ==> 0 !in segs[k]
    decreases |data|
  {
    match FirstZero(data)
    case None => []
    case Some(i) => [data[..i]] + Segments(data[i + 1..])
  }

  /** The segments written back, each followed by its zero byte. */
  function Rejoin(segs: seq<seq<Byte>>): seq<Byte> {
    if segs == [] then [] else segs[0] + [0] + Rejoin(segs[1..])
  }

  /** A byte string that is empty or ends with a zero byte. */
  predicate Terminated(data: seq<Byte>) {
    data == [] || data[|data| - 1] == 0
  }

  /** There is one string per zero byte. */
  lemma {:induction false} SegmentsCount(data: seq<Byte>)
    ensures |Segments(data)| == multiset(data)[0]
    decreases |data|
  {
    match FirstZero(data)
    case None =>
    case Some(i) =>
      var rest := data[i + 1..];
      SegmentsCount(rest);
      SegmentsAt(data, i);
      SplitAround(data, i);
      assert multiset(data) == multiset(data[..i]) + multiset([data[i]]) + multiset(rest);
      assert 0 !in multiset(data[..i]);
  }

  /** Writing the strings back gives the data up to its last zero byte; what follows has no zero byte. */
  lemma {:induction false} SegmentsRejoin(data: seq<Byte>)
    ensures Rejoin(Segments(data)) <= data
    ensures 0 !in data[|Rejoin(Segments(data))|..]
    decreases |data|
  {
    match FirstZero(data)
    case None =>
    case Some(i) =>
      var rest := data[i + 1..];
      SegmentsRejoin(rest);
      SegmentsAt(data, i);
      RejoinCons(data[..i], Segments(rest));
      SplitAround(data, i);
      PrefixAfterHead(data[..i] + [0], Rejoin(Segments(rest)), rest);
  }

  /** Zero-free strings written back, with a zero-free tail, are cut into the same strings again. */
  lemma {:induction false} RejoinSegments(segs: seq<seq<Byte>>, tail: seq<Byte>)
    requires forall k :: 0 <= k < |segs| ==> 0 !in segs[k]
    requires 0 !in tail
    ensures Segments(Rejoin(segs) + tail) == segs
    decreases |segs|
  {
    if segs != [] {
      var s := segs[0];
      var more := Rejoin(segs[1..]) + tail;
      var data := Rejoin(segs) + tail;
      RejoinSegments(segs[1..], tail);
      assert segs == [s] + segs[1..];
      RejoinCons(s, segs[1..]);
      ConcatAssoc(s + [0], Rejoin(segs[1..]), tail);
      ConcatAssoc(s, [0], more);
      SliceConcat(s, [0] + more, |s|);
      SliceConcat(s + [0], more, |s| + 1);
      FirstZeroAt(data, |s|);
      SegmentsAt(data, |s|);
    }
  }

  /** One more terminated string adds one segment. */
  lemma {:induction false} SegmentsExtend(a: seq<Byte>, b: seq<Byte>)
    requires Terminated(a) && 0 !in b
    ensures Segments(a + b + [0]) == Segments(a) + [b]
    decreases |a|
  {
    var d := a + b + [0];
    if a == [] {
      assert d == b + [0];
      FirstZeroAt(d, |b|);
      SliceConcat(b, [0], |b|);
      SegmentsAt(d, |b|);
      assert Segments(d[|b| + 1..]) == [];
    } else {
      var i := FirstZero(a).value;
      var a' := a[i + 1..];
      SliceConcat(a, b + [0], i);
      SliceConcat(a, b + [0], i + 1);
      ConcatAssoc(a, b, [0]);
      ConcatAssoc(a', b, [0]);
      FirstZeroAt(d, i);
      assert Terminated(a') by {
        if a' != [] {
          assert a'[|a'| - 1] == a[|a| - 1];
        }
      }
      SegmentsExtend(a', b);
      SegmentsAt(d, i);
      SegmentsAt(a, i);
      assert d[i + 1..] == a' + b + [0];
      assert Segments(d) == [a[..i]] + (Segments(a') + [b]);
      ConcatAssoc([a[..i]], Segments(a'), [b]);
    }
  }

  /** Bytes after the last zero byte give no string. */
  lemma {:induction false} SegmentsDropTail(a: seq<Byte>, b: seq<Byte>)
    requires Terminated(a) && 0 !in b
    ensures Segments(a + b) == Segments(a)
    decreases |a|
  {
    var d := a + b;
    if a != [] {
      var i := FirstZero(a).value;
      SliceConcat(a, b, i);
      FirstZeroAt(d, i);
      var a' := a[i + 1..];
      SliceConcat(a, b, i + 1);
      assert Terminated(a') by {
        if a' != [] {
          assert a'[|a'| - 1] == a[|a| - 1];
        }
      }
      SegmentsDropTail(a', b);
    }
  }

  /** A segment as text: its UTF-8 decoding, or the empty string when it is not valid UTF-8. */
  function DecodedOrEmpty(segment: seq<Byte>, utf8: seq<Byte> -> Option<string>): string {
    match utf8(segment)
    case Some(s) => s
    case None => ""
  }

  /** The segments as text, in order. */
  function Decoded(segs: seq<seq<Byte>>, utf8: seq<Byte> -> Option<string>): (table: seq<string>)
    ensures |table| == |segs|
    ensures forall k :: 0 <= k < |segs| ==> table[k] == DecodedOrEmpty(segs[k], utf8)
  {
    if segs == [] then []
    else Decoded(segs[..|segs| - 1], utf8) + [DecodedOrEmpty(segs[|segs| - 1], utf8)]
  }

  /** The strings of the table are the decoded zero-terminated segments of the section. */
  function StringTable(data: seq<Byte>, utf8: seq<Byte> -> Option<string>): seq<string> {
    Decoded(Segments(data), utf8)
  }

  /** A zero byte at `i` ends the string that started at `start`. */
  lemma SegmentsAtZero(data: seq<Byte>, start: nat, i: nat)
    requires start <= i < |data| && data[i] == 0
    requires Terminated(data[..start]) && 0 !in data[start..i]
    ensures Segments(data[..i + 1]) == Segments(data[..start]) + [data[start..i]]
    ensures Terminated(data[..i + 1])
  {
    assert data[..start] + data[start..i] + [0] == data[..i + 1];
    SegmentsExtend(data[..start], data[start..i]);
  }

  /** A non-zero byte at `i` lengthens the current string. */
  lemma NoZeroExtend(data: seq<Byte>, start: nat, i: nat)
    requires start <= i < |data| && data[i] != 0 && 0 !in data[start..i]
    ensures 0 !in data[start..i + 1]
  {
    assert data[start..i + 1] == data[start..i] + [data[i]];
  }

  /** Decoding one more segment. */
  lemma DecodedSnoc(segs: seq<seq<Byte>>, s: seq<Byte>, utf8: seq<Byte> -> Option<string>)
    ensures Decoded(segs + [s], utf8) == Decoded(segs, utf8) + [DecodedOrEmpty(s, utf8)]
  {
    assert (segs + [s])[..|segs|] == segs;
  }

  /** The bytes after the last zero byte give no string. */
  lemma SegmentsAtEnd(data: seq<Byte>, start: nat)
    requires start <= |data| && Terminated(data[..start]) && 0 !in data[start..|data|]
    ensures Segments(data) == Segments(data[..start])
  {
    var head, tail := data[..start], data[start..];
    SliceToEnd(data, start);
    SegmentsDropTail(head, tail);
    SplitAt(data, start);
    assert head + tail == data;
  }

  /** The loop step of `build_string_table` at a zero byte: the string before it is pushed. */
  lemma StringTableStep(data: seq<Byte>, utf8: seq<Byte> -> Option<string>, start: nat, i: nat, table: seq<string>)
    requires start <= i < |data| && data[i] == 0
    requires Terminated(data[..start]) && 0 !in data[start..i]
    requires table == Decoded(Segments(data[..start]), utf8)
    ensures Terminated(data[..i + 1]) && 0 !in data[i + 1..i + 1]
    ensures table + [DecodedOrEmpty(data[start..i], utf8)] == Decoded(Segments(data[..i + 1]), utf8)
  {
    SegmentsAtZero(data, start, i);
    DecodedSnoc(Segments(data[..start]), data[start..i], utf8);
  }

  /** `build_string_table`: a cursor at the start of the current string, and a push at every zero byte. */
  method BuildStringTable(data: seq<Byte>, utf8: seq<Byte> -> Option<string>) returns (table: seq<string>)
    ensures table == StringTable(data, utf8)
  {
    var lastStart := 0;
    table := [];
    for i := 0 to |data|
      invariant lastStart <= i
      invariant Terminated(data[..lastStart])
      invariant 0 !in data[lastStart..i]
      invariant table == Decoded(Segments(data[..lastStart]), utf8)
    {
      if data[i] == 0 {
        var piece := data[lastStart..i];
        StringTableStep(data, utf8, lastStart, i, table);
        lastStart := i + 1;
        var s := DecodedOrEmpty(piece, utf8);
        table := table + [s];
      } else {
        NoZeroExtend(data, lastStart, i);
      }
    }
    SegmentsAtEnd(data, lastStart);
  }

  /** The table has one string per zero byte, each the decoding of the bytes before it. */
  lemma StringTableShape(data: seq<Byte>, utf8: seq<Byte> -> Option<string>)
    ensures |StringTable(data, utf8)| == multiset(data)[0]
    ensures forall k :: 0 <= k < |Segments(data)| ==>
      StringTable(data, utf8)[k] == DecodedOrEmpty(Segments(data)[k], utf8)
  {
    SegmentsCount(data);
  }

  // ----- The code shown with a finding -----

  /** `n as i32`: the low 32 bits, read as two's complement. */
  function AsI32(n: int): (r: int)
    ensures -0x8000_0000 <= r < 0x8000_0000
    ensures -0x8000_0000 <= n < 0x8000_0000 ==> r == n
  {
    var m := n % 0x1_0000_0000;
    if m >= 0x8000_0000 then m - 0x1_0000_0000 else m
  }

  /** `position as i32 + i`, with the addition wrapping as in a release build. */
  function Position(p: nat, i: int): int {
    AsI32(AsI32(p) + i)
  }

  /** The string at a position of the table, or nothing when there is none. */
  function Entry(table: seq<string>, c: int): string {
    if 0 <= c < |table| then table[c] else ""
  }

  /** The lines of the code for the offsets `-4` up to but excluding `k`. */
  function CodeUpTo(table: seq<string>, p: nat, k: int): string
    requires -4 <= k
    decreases k + 4
  {
    if k == -4 then "" else CodeUpTo(table, p, k - 1) + Entry(table, Position(p, k - 1)) + "\n"
  }

  /** The code shown with a finding in the string at position `p`. */
  function Code(table: seq<string>, p: nat): string {
    CodeUpTo(table, p, 5)
  }

  /** `generate_code`: the strings four before to four after `p`, one per line, empty where there is none. */
  method GenerateCode(table: seq<string>, p: nat) returns (code: string)
    ensures code == Code(table, p)
  {
    code := "";
    for i := -4 to 5
      invariant code == CodeUpTo(table, p, i)
    {
      var current := Position(p, i);
      ghost var before := code;
      if current >= 0 {
        if current < |table| {
          code := code + table[current];
        }
      }
      code := code + "\n";
      CodeUpToStep(table, p, i, before, code);
    }
  }

  /** The loop step of `generate_code`: the line for offset `i` follows the lines before it. */
  lemma CodeUpToStep(table: seq<string>, p: nat, i: int, before: string, after: string)
    requires -4 <= i && before == CodeUpTo(table, p, i)
    requires after == before + Entry(table, Position(p, i)) + "\n"
    ensures after == CodeUpTo(table, p, i + 1)
  {
  }

  /** Positions below `2^31 - 4` do not wrap. */
  lemma PositionExact(p: nat, i: int)
    requires p < 0x7FFF_FFFC && -4 <= i <= 4
    ensures Position(p, i) == p + i
  {
  }

  /** The code grows line by line: what is shown up to an offset stays at the head. */
  lemma {:induction false} CodeUpToPrefix(table: seq<string>, p: nat, k: int, m: int)
    requires -4 <= k <= m
    ensures CodeUpTo(table, p, k) <= CodeUpTo(table, p, m)
    decreases m - k
  {
    if k < m {
      CodeUpToPrefix(table, p, k, m - 1);
    }
  }

  /** With strings free of newlines, the code up to offset `k` has one line per offset. */
  lemma {:induction false} CodeUpToLines(table: seq<string>, p: nat, k: int)
    requires -4 <= k
    requires forall j :: 0 <= j < |table| ==> '\n' !in table[j]
    ensures Text.CountChar(CodeUpTo(table, p, k), '\n') == k + 4
    decreases k + 4
  {
    if k > -4 {
      CodeUpToLines(table, p, k - 1);
      var e := Entry(table, Position(p, k - 1));
      Text.CountCharAppend(CodeUpTo(table, p, k - 1), e, '\n');
      Text.CountCharAppend(CodeUpTo(table, p, k - 1) + e, "\n", '\n');
      assert Text.CountChar(e, '\n') == 0;
      assert Text.CountChar("\n", '\n') == 1 by {
        assert "\n"[..0] == [];
      }
    }
  }

  /**
    * The string the finding is about is the fifth line of its code (line 4, counting from
    * zero, as the finding says): four lines come before it.
    */
  lemma CodeShowsString(table: seq<string>, p: nat)
    requires p < |table| && p < 0x7FFF_FFFC
    requires forall j :: 0 <= j < |table| ==> '\n' !in table[j]
    ensures CodeUpTo(table, p, 0) + table[p] + "\n" <= Code(table, p)
    ensures Text.CountChar(CodeUpTo(table, p, 0), '\n') == 4
    ensures Text.CountChar(Code(table, p), '\n') == 9
  {
    PositionExact(p, 0);
    CodeUpToPrefix(table, p, 1, 5);
    CodeUpToLines(table, p, 0);
    CodeUpToLines(table, p, 5);
  }

  // ----- The rules searched in a library -----

  /** The rules kept by `retain`: those whose file expressions select the library's file name. */
  function Checked(rules: seq<Rule>, name: string): (kept: seq<Rule>)
    ensures |kept| <= |rules|
  {
    if rules == [] then []
    else
      var r := rules[|rules| - 1];
      Checked(rules[..|rules| - 1], name) + (if FileSelected(r.includeFileRegex, r.excludeFileRegex, name) then [r] else [])
  }

  /** A rule is kept exactly when it is one of the rules and selects the file. */
  lemma {:induction false} CheckedMembers(rules: seq<Rule>, name: string, r: Rule)
    ensures r in Checked(rules, name) <==> r in rules && FileSelected(r.includeFileRegex, r.excludeFileRegex, name)
    decreases |rules|
  {
    if rules != [] {
      var init := rules[..|rules| - 1];
      CheckedMembers(init, name, r);
      assert rules == init + [rules[|rules| - 1]];
    }
  }

  /** `rules.clone()` then `retain(|r| r.has_to_check(name))`. */
  method RetainChecked(rules: seq<Rule>, name: string) returns (kept: seq<Rule>)
    ensures kept == Checked(rules, name)
  {
    kept := [];
    for i := 0 to |rules|
      invariant kept == Checked(rules[..i], name)
    {
      var check := HasToCheck(rules[i], name);
      SlicePrefix(rules, i + 1, i);
      if check {
        kept := kept + [rules[i]];
      }
    }
    WholeSlice(rules);
  }

  /** The finding of a rule in a library: a warning at line 4 of the code shown. */
  function Hit(rule: Rule, path: string, code: string): (v: Vulnerability)
    ensures v.criticality == Warning && v.name == rule.name && v.description == rule.description
    ensures v.file == Some(path) && v.startLine == v.endLine == Some(4) && v.code == Some(code)
  {
    Vulnerability(Warning, rule.name, rule.description, Some(path), Some(4), Some(4), Some(code))
  }

  /** `n` copies of a finding. */
  function Copies(v: Vulnerability, n: nat): (vs: seq<Vulnerability>)
    ensures |vs| == n && forall k :: 0 <= k < n ==> vs[k] == v
  {
    if n == 0 then [] else Copies(v, n - 1) + [v]
  }

  /** One finding per match of the rule in the string at `i`, all the same. */
  function RuleHits(rule: Rule, table: seq<string>, i: nat, path: string): seq<Vulnerability>
    requires i < |table|
  {
    Copies(Hit(rule, path, Code(table, i)), |rule.regex.findIter(table[i])|)
  }

  /** The findings of the rules, in order, in the string at `i`. */
  function StringHits(rules: seq<Rule>, table: seq<string>, i: nat, path: string): seq<Vulnerability>
    requires i < |table|
  {
    if rules == [] then []
    else StringHits(rules[..|rules| - 1], table, i, path) + RuleHits(rules[|rules| - 1], table, i, path)
  }

  /** The findings in the first `n` strings; empty strings are not searched. */
  function LibHits(rules: seq<Rule>, table: seq<string>, n: nat, path: string): seq<Vulnerability>
    requires n <= |table|
  {
    if n == 0 then [] else LibHits(rules, table, n - 1, path) + TableHits(rules, table, n - 1, path)
  }

  /** The findings in the string at `i`: none when it is empty. */
  function TableHits(rules: seq<Rule>, table: seq<string>, i: nat, path: string): seq<Vulnerability>
    requires i < |table|
  {
    if table[i] == "" then [] else StringHits(rules, table, i, path)
  }

  /** `rule` matches the non-empty string at `i`, and `v` is the finding it gives. */
  ghost predicate HitAt(rules: seq<Rule>, table: seq<string>, path: string, i: int, rule: Rule, v: Vulnerability) {
    0 <= i < |table| && table[i] != "" && rule in rules && |rule.regex.findIter(table[i])| > 0
    && v == Hit(rule, path, Code(table, i))
  }

  /** Some rule matches one of the first `n` strings and gives `v`. */
  ghost predicate HitIn(rules: seq<Rule>, table: seq<string>, n: nat, path: string, v: Vulnerability) {
    exists i, r :: i < n && HitAt(rules, table, path, i, r, v)
  }

  /** The rule matches the string at `i`, and `v` is the finding it gives there. */
  ghost predicate MatchesAt(rule: Rule, table: seq<string>, i: nat, path: string, v: Vulnerability)
    requires i < |table|
  {
    |rule.regex.findIter(table[i])| > 0 && v == Hit(rule, path, Code(table, i))
  }

  /** Some rule matches the string at `i` and gives `v`. */
  ghost predicate StringHitIn(rules: seq<Rule>, table: seq<string>, i: nat, path: string, v: Vulnerability)
    requires i < |table|
  {
    exists r :: r in rules && MatchesAt(r, table, i, path, v)
  }

  /** One rule gives a finding in a string exactly when it matches it, and only that finding. */
  lemma RuleHitsMembers(rule: Rule, table: seq<string>, i: nat, path: string, v: Vulnerability)
    requires i < |table|
    ensures v in RuleHits(rule, table, i, path) <==> MatchesAt(rule, table, i, path, v)
  {
    var hits := RuleHits(rule, table, i, path);
    if v in hits {
      var k :| 0 <= k < |hits| && hits[k] == v;
    } else if |rule.regex.findIter(table[i])| > 0 {
      assert hits[0] in hits;
    }
  }

  /** The findings in one string are those of the rules that match it. */
  lemma {:induction false} StringHitsMembers(rules: seq<Rule>, table: seq<string>, i: nat, path: string, v: Vulnerability)
    requires i < |table|
    ensures v in StringHits(rules, table, i, path) <==> StringHitIn(rules, table, i, path, v)
    decreases |rules|
  {
    if rules != [] {
      var init := rules[..|rules| - 1];
      var last := rules[|rules| - 1];
      StringHitsMembers(init, table, i, path, v);
      RuleHitsMembers(last, table, i, path, v);
      assert StringHits(rules, table, i, path) == StringHits(init, table, i, path) + RuleHits(last, table, i, path);
      if StringHitIn(rules, table, i, path, v) {
        var r :| r in rules && MatchesAt(r, table, i, path, v);
        InInitOrLast(rules, r);
      }
      if StringHitIn(init, table, i, path, v) {
        var r :| r in init && MatchesAt(r, table, i, path, v);
        InInitOrLast(rules, r);
      }
      if MatchesAt(last, table, i, path, v) {
        InInitOrLast(rules, last);
      }
    }
  }

  /**
    * The findings of a library are exactly the findings of the rules that match a
    * non-empty string of its table, each with the code around that string.
    */
  lemma {:induction false} LibHitsMembers(rules: seq<Rule>, table: seq<string>, n: nat, path: string, v: Vulnerability)
    requires n <= |table|
    ensures v in LibHits(rules, table, n, path) <==> HitIn(rules, table, n, path, v)
    decreases n
  {
    if n > 0 {
      LibHitsMembers(rules, table, n - 1, path, v);
      StringHitsMembers(rules, table, n - 1, path, v);
      var last := TableHits(rules, table, n - 1, path);
      assert LibHits(rules, table, n, path) == LibHits(rules, table, n - 1, path) + last;
      if v in last {
        var r :| r in rules && MatchesAt(r, table, n - 1, path, v);
        assert HitAt(rules, table, path, n - 1, r, v);
      }
      if HitIn(rules, table, n, path, v) {
        var i, r :| i < n && HitAt(rules, table, path, i, r, v);
        if i < n - 1 {
          assert HitIn(rules, table, n - 1, path, v);
        } else {
          assert v in last;
        }
      }
    }
  }

  /** The matches of one rule in the string at `i`, each added to the results with the code around it. */
  method ReportRule(rule: Rule, table: seq<string>, i: nat, path: string, results: Results,
    ghost b0: map<Criticality, set<Vulnerability>>, ghost found: seq<Vulnerability>)
    requires i < |table|
    requires results.Valid() && Extended(b0, results.buckets, found)
    modifies results
    ensures results.Valid() && results.Info() == old(results.Info())
    ensures Extended(b0, results.buckets, found + RuleHits(rule, table, i, path))
  {
    var ms := rule.regex.findIter(table[i]);
    ghost var hit := Hit(rule, path, Code(table, i));
    assert found + Copies(hit, 0) == found;
    for k := 0 to |ms|
      invariant results.Valid() && results.Info() == old(results.Info())
      invariant Extended(b0, results.buckets, found + Copies(hit, k))
    {
      var code := GenerateCode(table, i);
      var v := Hit(rule, path, code);
      L.Report(results, v, b0, found + Copies(hit, k));
      ConcatAssoc(found, Copies(hit, k), [v]);
    }
  }

  /** The working rules searched, in order, in the string at `i`. */
  method ReportString(rules: seq<Rule>, table: seq<string>, i: nat, path: string, results: Results,
    ghost b0: map<Criticality, set<Vulnerability>>, ghost found: seq<Vulnerability>)
    requires i < |table|
    requires results.Valid() && Extended(b0, results.buckets, found)
    modifies results
    ensures results.Valid() && results.Info() == old(results.Info())
    ensures Extended(b0, results.buckets, found + StringHits(rules, table, i, path))
  {
    assert found + StringHits([], table, i, path) == found;
    for j := 0 to |rules|
      invariant results.Valid() && results.Info() == old(results.Info())
      invariant Extended(b0, results.buckets, found + StringHits(rules[..j], table, i, path))
    {
      ghost var before := StringHits(rules[..j], table, i, path);
      ReportRule(rules[j], table, i, path, results, b0, found + before);
      SlicePrefix(rules, j + 1, j);
      ConcatAssoc(found, before, RuleHits(rules[j], table, i, path));
    }
    WholeSlice(rules);
  }

  /** The loop over the string table, skipping empty strings. */
  method ReportTable(rules: seq<Rule>, table: seq<string>, path: string, results: Results)
    requires results.Valid()
    modifies results
    ensures results.Valid() && results.Info() == old(results.Info())
    ensures Extended(old(results.buckets), results.buckets, LibHits(rules, table, |table|, path))
  {
    ghost var b0 := results.buckets;
    ExtendedNothing(b0);
    for i := 0 to |table|
      invariant results.Valid() && results.Info() == old(results.Info())
      invariant Extended(b0, results.buckets, LibHits(rules, table, i, path))
    {
      ReportTableString(rules, table, i, path, results, b0, LibHits(rules, table, i, path));
    }
  }

  /** One string of the table: searched unless it is empty. */
  method ReportTableString(rules: seq<Rule>, table: seq<string>, i: nat, path: string, results: Results,
    ghost b0: map<Criticality, set<Vulnerability>>, ghost found: seq<Vulnerability>)
    requires i < |table|
    requires results.Valid() && Extended(b0, results.buckets, found)
    modifies results
    ensures results.Valid() && results.Info() == old(results.Info())
    ensures Extended(b0, results.buckets, found + TableHits(rules, table, i, path))
  {
    if table[i] != "" {
      ReportString(rules, table, i, path, results, b0, found);
    } else {
      assert found + [] == found;
    }
  }

  /** What a library adds: its findings when its section can be read, nothing otherwise. */
  function LibFindings(path: string, name: string, rodata: Option<seq<Byte>>, utf8: seq<Byte> -> Option<string>,
    rules: seq<Rule>): seq<Vulnerability>
  {
    match rodata
    case None => []
    case Some(data) =>
      var table := StringTable(data, utf8);
      LibHits(Checked(rules, name), table, |table|, path)
  }

  /**
    * `analyze_lib` on the library at `path` called `name`: it panics when the section
    * cannot be read, and otherwise adds the findings of the rules that apply to it.
    */
  method AnalyzeLib(path: string, name: string, rodata: Option<seq<Byte>>, utf8: seq<Byte> -> Option<string>,
    rules: seq<Rule>, results: Results) returns (ok: bool)
    requires results.Valid()
    modifies results
    ensures ok == rodata.Some?
    ensures results.Valid() && results.Info() == old(results.Info())
    ensures Extended(old(results.buckets), results.buckets, LibFindings(path, name, rodata, utf8, rules))
  {
    if rodata.None? {
      ExtendedNothing(results.buckets);
      return false;
    }
    var table := BuildStringTable(rodata.value, utf8);
    var working := RetainChecked(rules, name);
    ReportTable(working, table, path, results);
    return true;
  }

  /**
    * Every finding of a library is a warning at line 4, for a rule that applies to the
    * file, matching a non-empty string of its table; and every such match gives one.
    */
  lemma LibFindingsMembers(path: string, name: string, data: seq<Byte>, utf8: seq<Byte> -> Option<string>,
    rules: seq<Rule>, v: Vulnerability)
    ensures v in LibFindings(path, name, Some(data), utf8, rules) <==>
      HitIn(Checked(rules, name), StringTable(data, utf8), |StringTable(data, utf8)|, path, v)
    ensures v in LibFindings(path, name, Some(data), utf8, rules) ==>
      v.criticality == Warning && v.startLine == Some(4) && v.file == Some(path)
  {
    var table := StringTable(data, utf8);
    var kept := Checked(rules, name);
    assert LibFindings(path, name, Some(data), utf8, rules) == LibHits(kept, table, |table|, path);
    LibHitsMembers(kept, table, |table|, path, v);
    if v in LibFindings(path, name, Some(data), utf8, rules) {
      var i, r :| i < |table| && HitAt(kept, table, path, i, r, v);
    }
  }

  /** A library whose rules all select other files adds nothing. */
  lemma {:induction false} NoRuleNoFinding(path: string, name: string, data: seq<Byte>, utf8: seq<Byte> -> Option<string>,
    rules: seq<Rule>)
    requires forall k :: 0 <= k < |rules| ==> !FileSelected(rules[k].includeFileRegex, rules[k].excludeFileRegex, name)
    ensures LibFindings(path, name, Some(data), utf8, rules) == []
  {
    var table := StringTable(data, utf8);
    var lf := LibFindings(path, name, Some(data), utf8, rules);
    if lf != [] {
      var v := lf[0];
      LibFindingsMembers(path, name, data, utf8, rules, v);
      var i, r :| i < |table| && HitAt(Checked(rules, name), table, path, i, r, v);
      CheckedMembers(rules, name, r);
    }
  }

  // ----- The libraries of the application -----

  /** How walking the libraries ended: normally, with an error returned, or with a panic. */
  datatype Outcome = Finished | Failed | Panicked

  /** The findings added so far, and how the walk ended. */
  datatype LibScan = LibScan(found: seq<Vulnerability>, outcome: Outcome)

  /** A step of the walk after `before`: nothing more once it did not finish. */
  function Then(before: LibScan, next: LibScan): LibScan {
    if before.outcome != Finished then before else LibScan(before.found + next.found, next.outcome)
  }

  /** The path of a library of the application at `app`. */
  function LibPath(app: string, arch: string, name: string): string {
    app + "/lib/" + arch + "/" + name
  }

  /** A shared object: its extension is `so`. */
  predicate IsSharedObject(name: string) {
    Paths.ExtensionOfName(name) == Some("so")
  }

  /** One entry of an architecture directory: a shared object is analysed; other files and directories are not. */
  function FileStep(app: string, arch: string, e: CodeAnalysis.Entry, elf: string -> Option<seq<Byte>>,
    utf8: seq<Byte> -> Option<string>, rules: seq<Rule>): LibScan
  {
    match e
    case BrokenEntry => LibScan([], Failed)
    case DirEntry(_, _) => LibScan([], Finished)
    case FileEntry(name) =>
      if IsSharedObject(name) then
        var path := LibPath(app, arch, name);
        LibScan(LibFindings(path, name, elf(path), utf8, rules), if elf(path).Some? then Finished else Panicked)
      else LibScan([], Finished)
  }

  /** The loop over the entries of an architecture directory. */
  function ArchScan(app: string, arch: string, es: seq<CodeAnalysis.Entry>, elf: string -> Option<seq<Byte>>,
    utf8: seq<Byte> -> Option<string>, rules: seq<Rule>): LibScan
  {
    if es == [] then LibScan([], Finished)
    else Then(ArchScan(app, arch, es[..|es| - 1], elf, utf8, rules), FileStep(app, arch, es[|es| - 1], elf, utf8, rules))
  }

  /** One entry of `lib`: a directory is an architecture, whose listing is walked; a file is passed over. */
  function ArchStep(app: string, e: CodeAnalysis.Entry, elf: string -> Option<seq<Byte>>,
    utf8: seq<Byte> -> Option<string>, rules: seq<Rule>): LibScan
  {
    match e
    case BrokenEntry => LibScan([], Failed)
    case FileEntry(_) => LibScan([], Finished)
    case DirEntry(arch, listing) =>
      match listing
      case Unlistable => LibScan([], Failed)
      case Listing(es) => ArchScan(app, arch, es, elf, utf8, rules)
  }

  /** The loop over the entries of `lib`. */
  function LibsScan(app: string, es: seq<CodeAnalysis.Entry>, elf: string -> Option<seq<Byte>>,
    utf8: seq<Byte> -> Option<string>, rules: seq<Rule>): LibScan
  {
    if es == [] then LibScan([], Finished)
    else Then(LibsScan(app, es[..|es| - 1], elf, utf8, rules), ArchStep(app, es[|es| - 1], elf, utf8, rules))
  }

  /** `analyze_path` on the application at `app`, whose `lib` directory is listed as `lib`. */
  function PathScan(app: string, lib: CodeAnalysis.Listing, elf: string -> Option<seq<Byte>>,
    utf8: seq<Byte> -> Option<string>, rules: seq<Rule>): LibScan
  {
    match lib
    case Unlistable => LibScan([], Failed)
    case Listing(es) => LibsScan(app, es, elf, utf8, rules)
  }

  /** Once the walk has stopped, further entries change nothing. */
  lemma {:induction false} ArchScanAfterStop(app: string, arch: string, es: seq<CodeAnalysis.Entry>,
    rest: seq<CodeAnalysis.Entry>, elf: string -> Option<seq<Byte>>, utf8: seq<Byte> -> Option<string>, rules: seq<Rule>)
    requires ArchScan(app, arch, es, elf, utf8, rules).outcome != Finished
    ensures ArchScan(app, arch, es + rest, elf, utf8, rules) == ArchScan(app, arch, es, elf, utf8, rules)
    decreases |rest|
  {
    if rest == [] {
      assert es + rest == es;
    } else {
      assert (es + rest)[..|es + rest| - 1] == es + rest[..|rest| - 1];
      ArchScanAfterStop(app, arch, es, rest[..|rest| - 1], elf, utf8, rules);
    }
  }

  lemma {:induction false} LibsScanAfterStop(app: string, es: seq<CodeAnalysis.Entry>, rest: seq<CodeAnalysis.Entry>,
    elf: string -> Option<seq<Byte>>, utf8: seq<Byte> -> Option<string>, rules: seq<Rule>)
    requires LibsScan(app, es, elf, utf8, rules).outcome != Finished
    ensures LibsScan(app, es + rest, elf, utf8, rules) == LibsScan(app, es, elf, utf8, rules)
    decreases |rest|
  {
    if rest == [] {
      assert es + rest == es;
    } else {
      assert (es + rest)[..|es + rest| - 1] == es + rest[..|rest| - 1];
      LibsScanAfterStop(app, es, rest[..|rest| - 1], elf, utf8, rules);
    }
  }

  /** The walk over the first `i + 1` entries is the walk over the first `i` and then entry `i`. */
  lemma ArchScanNext(app: string, arch: string, es: seq<CodeAnalysis.Entry>, i: nat, elf: string -> Option<seq<Byte>>,
    utf8: seq<Byte> -> Option<string>, rules: seq<Rule>)
    requires i < |es|
    ensures ArchScan(app, arch, es[..i + 1], elf, utf8, rules) ==
      Then(ArchScan(app, arch, es[..i], elf, utf8, rules), FileStep(app, arch, es[i], elf, utf8, rules))
  {
    SlicePrefix(es, i + 1, i);
  }

  lemma LibsScanNext(app: string, es: seq<CodeAnalysis.Entry>, i: nat, elf: string -> Option<seq<Byte>>,
    utf8: seq<Byte> -> Option<string>, rules: seq<Rule>)
    requires i < |es|
    ensures LibsScan(app, es[..i + 1], elf, utf8, rules) ==
      Then(LibsScan(app, es[..i], elf, utf8, rules), ArchStep(app, es[i], elf, utf8, rules))
  {
    SlicePrefix(es, i + 1, i);
  }

  /** One entry of an architecture directory. */
  method AnalyzeEntry(app: string, arch: string, e: CodeAnalysis.Entry, elf: string -> Option<seq<Byte>>,
    utf8: seq<Byte> -> Option<string>, rules: seq<Rule>, results: Results) returns (outcome: Outcome)
    requires results.Valid()
    modifies results
    ensures results.Valid() && results.Info() == old(results.Info())
    ensures outcome == FileStep(app, arch, e, elf, utf8, rules).outcome
    ensures Extended(old(results.buckets), results.buckets, FileStep(app, arch, e, elf, utf8, rules).found)
  {
    ExtendedNothing(results.buckets);
    match e
    case BrokenEntry =>
      return Failed;
    case DirEntry(_, _) =>
      return Finished;
    case FileEntry(name) =>
      if !IsSharedObject(name) {
        return Finished;
      }
      var path := LibPath(app, arch, name);
      var ok := AnalyzeLib(path, name, elf(path), utf8, rules, results);
      outcome := if ok then Finished else Panicked;
  }

  /** The walk over one architecture directory; an unreadable entry ends it with an error. */
  method AnalyzeArch(app: string, arch: string, es: seq<CodeAnalysis.Entry>, elf: string -> Option<seq<Byte>>,
    utf8: seq<Byte> -> Option<string>, rules: seq<Rule>, results: Results) returns (outcome: Outcome)
    requires results.Valid()
    modifies results
    ensures results.Valid() && results.Info() == old(results.Info())
    ensures outcome == ArchScan(app, arch, es, elf, utf8, rules).outcome
    ensures Extended(old(results.buckets), results.buckets, ArchScan(app, arch, es, elf, utf8, rules).found)
  {
    ghost var b0 := results.buckets;
    ExtendedNothing(b0);
    for i := 0 to |es|
      invariant results.Valid() && results.Info() == old(results.Info())
      invariant ArchScan(app, arch, es[..i], elf, utf8, rules).outcome == Finished
      invariant Extended(b0, results.buckets, ArchScan(app, arch, es[..i], elf, utf8, rules).found)
    {
      ghost var before := ArchScan(app, arch, es[..i], elf, utf8, rules).found;
      ghost var b1 := results.buckets;
      var step := AnalyzeEntry(app, arch, es[i], elf, utf8, rules, results);
      ExtendedTrans(b0, b1, results.buckets, before, FileStep(app, arch, es[i], elf, utf8, rules).found);
      ArchScanNext(app, arch, es, i, elf, utf8, rules);
      if step != Finished {
        ArchScanAfterStop(app, arch, es[..i + 1], es[i + 1..], elf, utf8, rules);
        SplitAt(es, i + 1);
        return step;
      }
    }
    WholeSlice(es);
    return Finished;
  }

  /** One entry of `lib`. */
  method AnalyzeArchEntry(app: string, e: CodeAnalysis.Entry, elf: string -> Option<seq<Byte>>,
    utf8: seq<Byte> -> Option<string>, rules: seq<Rule>, results: Results) returns (outcome: Outcome)
    requires results.Valid()
    modifies results
    ensures results.Valid() && results.Info() == old(results.Info())
    ensures outcome == ArchStep(app, e, elf, utf8, rules).outcome
    ensures Extended(old(results.buckets), results.buckets, ArchStep(app, e, elf, utf8, rules).found)
  {
    ExtendedNothing(results.buckets);
    match e
    case BrokenEntry =>
      return Failed;
    case FileEntry(_) =>
      return Finished;
    case DirEntry(arch, listing) =>
      if listing.Unlistable? {
        return Failed;
      }
      outcome := AnalyzeArch(app, arch, listing.entries, elf, utf8, rules, results);
  }

  /**
    * `analyze_path`: every architecture directory under `lib` is walked; the first entry
    * that cannot be read ends the walk with an error, and a library whose section cannot
    * be read ends the program. What was added before stays in the results.
    */
  method AnalyzePath(app: string, lib: CodeAnalysis.Listing, elf: string -> Option<seq<Byte>>,
    utf8: seq<Byte> -> Option<string>, rules: seq<Rule>, results: Results) returns (outcome: Outcome)
    requires results.Valid()
    modifies results
    ensures results.Valid() && results.Info() == old(results.Info())
    ensures outcome == PathScan(app, lib, elf, utf8, rules).outcome
    ensures Extended(old(results.buckets), results.buckets, PathScan(app, lib, elf, utf8, rules).found)
  {
    ghost var b0 := results.buckets;
    ExtendedNothing(b0);
    if lib.Unlistable? {
      return Failed;
    }
    var es := lib.entries;
    for i := 0 to |es|
      invariant results.Valid() && results.Info() == old(results.Info())
      invariant LibsScan(app, es[..i], elf, utf8, rules).outcome == Finished
      invariant Extended(b0, results.buckets, LibsScan(app, es[..i], elf, utf8, rules).found)
    {
      ghost var before := LibsScan(app, es[..i], elf, utf8, rules).found;
      ghost var b1 := results.buckets;
      var step := AnalyzeArchEntry(app, es[i], elf, utf8, rules, results);
      ExtendedTrans(b0, b1, results.buckets, before, ArchStep(app, es[i], elf, utf8, rules).found);
      LibsScanNext(app, es, i, elf, utf8, rules);
      if step != Finished {
        LibsScanAfterStop(app, es[..i + 1], es[i + 1..], elf, utf8, rules);
        SplitAt(es, i + 1);
        return step;
      }
    }
    WholeSlice(es);
    return Finished;
  }

  /** Every finding of the walk is a warning at line 4 about a shared object under `lib`. */
  lemma {:induction false} ArchScanFindings(app: string, arch: string, es: seq<CodeAnalysis.Entry>,
    elf: string -> Option<seq<Byte>>, utf8: seq<Byte> -> Option<string>, rules: seq<Rule>)
    ensures forall v :: v in ArchScan(app, arch, es, elf, utf8, rules).found ==>
      v.criticality == Warning && v.startLine == Some(4) && v.file.Some?
    decreases |es|
  {
    if es != [] {
      ArchScanFindings(app, arch, es[..|es| - 1], elf, utf8, rules);
      match es[|es| - 1]
      case FileEntry(name) =>
        var path := LibPath(app, arch, name);
        if IsSharedObject(name) && elf(path).Some? {
          forall v | v in LibFindings(path, name, elf(path), utf8, rules)
            ensures v.criticality == Warning && v.startLine == Some(4) && v.file.Some?
          {
            LibFindingsMembers(path, name, elf(path).value, utf8, rules, v);
          }
        }
      case _ =>
    }
  }
}
