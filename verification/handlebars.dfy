/**
  * The template helpers of the HTML report: the line numbers beside a finding's snippet,
  * the line numbers and lines of a whole source file, the snippet with the finding's lines
  * marked, and the menu of the source tree.
  *
  * A helper receives its parameters as JSON values and writes text; here it returns the
  * text, or the error that ends the rendering. An `unwrap` that fails is `Panic`.
  */
module HandlebarsHelpers {
  import opened Common
  import opened JsonValues
  import Text
  import Html
  import Snippets

  datatype HelperError = RenderError(message: string) | Panic

  const DefaultSeparator: string := "<br>"
  const NotAVulnerability: string := "to generate the vulnerability index, the first parameter must be a vulnerability"
  const SeparatorNotString: string := "the provided line separator for the code lines was not a string"
  const CodeNotString: string := "the code must be a string"
  const MenuNotArray: string := "to generate the menu, the first parameter must be a menu array"
  const InvalidMenuObject: string := "invalid menu object type"

  /** The optional second parameter: `"<br>"` when absent, an error when it is not a string. */
  function Separator(params: seq<Json>): (r: Result<string, HelperError>)
    ensures |params| <= 1 ==> r == Ok(DefaultSeparator)
    ensures |params| > 1 ==> (r.Ok? <==> params[1].Str?)
  {
    if |params| <= 1 then Ok(DefaultSeparator)
    else if params[1].Str? then Ok(params[1].s)
    else Err(RenderError(SeparatorNotString))
  }

  /**
    * The lines of a serialized finding: `line` for both when present, else `start_line`
    * and `end_line`; a missing or non-integer field panics.
    */
  function LineRange(v: map<string, Json>): (r: Result<(int, int), HelperError>)
    ensures "line" in v && v["line"].Number? ==> r == Ok((v["line"].n, v["line"].n))
  {
    if "line" in v then
      if v["line"].Number? then Ok((v["line"].n, v["line"].n)) else Err(Panic)
    else if "start_line" in v && v["start_line"].Number? && "end_line" in v && v["end_line"].Number? then
      Ok((v["start_line"].n, v["end_line"].n))
    else Err(Panic)
  }

  /** The numbered lines around a finding: from four before its start (or line 1) to before five past its end. */
  function Window(start: int, end: int): (nat, int) {
    (if start > 5 then start - 4 else 1, end + 5)
  }

  // ---------------------------------------------------------------------------------
  // Line numbers

  /** Every integer from `from` up to before `to`, each followed by the separator. */
  function Numbered(from: nat, to: int, sep: string): string
    decreases if to <= from then 0 else to - from
  {
    if to <= from then "" else Numbered(from, to - 1, sep) + Text.NatToString(to - 1) + sep
  }

  /** Numbering a range is numbering its two halves one after the other. */
  lemma {:induction false} NumberedSplit(from: nat, mid: nat, to: int, sep: string)
    requires from <= mid <= to
    ensures Numbered(from, to, sep) == Numbered(from, mid, sep) + Numbered(mid, to, sep)
    decreases if to <= mid then 0 else to - mid
  {
    if to == mid {
      assert Numbered(mid, to, sep) == "";
    } else {
      NumberedSplit(from, mid, to - 1, sep);
      var a, b, n := Numbered(from, mid, sep), Numbered(mid, to - 1, sep), Text.NatToString(to - 1);
      assert Numbered(from, to, sep) == Numbered(from, to - 1, sep) + n + sep;
      assert Numbered(mid, to, sep) == b + n + sep;
      ConcatAssoc(a, b, n);
      ConcatAssoc(a, b + n, sep);
    }
  }

  /** The loop `for l in from..to`: the number, then the separator. */
  method NumberLines(from: nat, to: int, sep: string) returns (rendered: string)
    ensures rendered == Numbered(from, to, sep)
  {
    rendered := "";
    if to <= from {
      return;
    }
    for l := from to to
      invariant rendered == Numbered(from, l, sep)
    {
      rendered := rendered + Text.NatToString(l) + sep;
    }
  }

  /**
    * `LineNumbers`: the numbers of the window around the finding. A window that ends
    * before it starts makes the buffer's capacity overflow, which panics.
    */
  function LineNumbers(params: seq<Json>): Result<string, HelperError> {
    if |params| == 0 || !params[0].Object? then Err(RenderError(NotAVulnerability))
    else
      match Separator(params)
      case Err(e) => Err(e)
      case Ok(sep) =>
        match LineRange(params[0].fields)
        case Err(e) => Err(e)
        case Ok(range) =>
          var (from, to) := Window(range.0, range.1);
          if to < from then Err(Panic) else Ok(Numbered(from, to, sep))
  }

  /** `LineNumbers::call`. */
  method LineNumbersCall(params: seq<Json>) returns (r: Result<string, HelperError>)
    ensures r == LineNumbers(params)
  {
    if |params| == 0 || !params[0].Object? {
      return Err(RenderError(NotAVulnerability));
    }
    var sep := Separator(params);
    if sep.Err? {
      return Err(sep.error);
    }
    var range := LineRange(params[0].fields);
    if range.Err? {
      return Err(range.error);
    }
    var (from, to) := Window(range.value.0, range.value.1);
    if to < from {
      return Err(Panic);
    }
    var rendered := NumberLines(from, to, sep.value);
    return Ok(rendered);
  }

  /**
    * A serialized finding on the lines `s` to `e` (counted from 0, stored from 1) gets the
    * numbers of the lines of its snippet: from four before its start line, or the first
    * line, up to four past its end line.
    */
  lemma LineNumbersOfFinding(v: map<string, Json>, s: nat, e: nat)
    requires s <= e
    requires ("line" in v && v["line"] == Number(s + 1) && s == e)
      || ("line" !in v && "start_line" in v && v["start_line"] == Number(s + 1) && "end_line" in v && v["end_line"] == Number(e + 1))
    ensures LineNumbers([Object(v)]) == Ok(Numbered(Snippets.WindowStart(s) + 1, e + 6, DefaultSeparator))
  {
  }

  /** `AllLines`: the numbers 1 up to the number of newlines in the code. */
  function AllLines(params: seq<Json>): Result<string, HelperError> {
    if |params| == 0 || !params[0].Str? then Err(RenderError(CodeNotString))
    else
      match Separator(params)
      case Err(e) => Err(e)
      case Ok(sep) => Ok(Numbered(1, Text.CountChar(params[0].s, '\n') + 1, sep))
  }

  /** `AllLines::call`. */
  method AllLinesCall(params: seq<Json>) returns (r: Result<string, HelperError>)
    ensures r == AllLines(params)
  {
    if |params| == 0 || !params[0].Str? {
      return Err(RenderError(CodeNotString));
    }
    var sep := Separator(params);
    if sep.Err? {
      return Err(sep.error);
    }
    var count := Text.CountChar(params[0].s, '\n');
    var rendered := NumberLines(1, count + 1, sep.value);
    return Ok(rendered);
  }

  // ---------------------------------------------------------------------------------
  // The lines of a whole file

  /** A line of the file: its number, its indentation as is, and its escaped body. */
  function CodeLine(number: nat, line: string, sep: string): string {
    var (indent, body) := Html.SplitIndent(line);
    "<code id=\"code-line-" + Text.NatToString(number) + "\">" + indent + "<span class=\"line_body\">"
      + Html.Escaped(body) + "</span></code>" + sep
  }

  /** The lines `ls`, numbered from 1. */
  function CodeLines(ls: seq<string>, sep: string): string
    decreases |ls|
  {
    if ls == [] then "" else CodeLines(ls[..|ls| - 1], sep) + CodeLine(|ls|, ls[|ls| - 1], sep)
  }

  /** `AllCode`: every line of the code, numbered from 1. */
  function AllCode(params: seq<Json>): Result<string, HelperError> {
    if |params| == 0 || !params[0].Str? then Err(RenderError(CodeNotString))
    else
      match Separator(params)
      case Err(e) => Err(e)
      case Ok(sep) => Ok(CodeLines(Text.Lines(params[0].s), sep))
  }

  /** `AllCode::call`: the loop over `code.lines().enumerate()`. */
  method AllCodeCall(params: seq<Json>) returns (r: Result<string, HelperError>)
    ensures r == AllCode(params)
  {
    if |params| == 0 || !params[0].Str? {
      return Err(RenderError(CodeNotString));
    }
    var sep := Separator(params);
    if sep.Err? {
      return Err(sep.error);
    }
    var out := WriteCodeLines(Text.Lines(params[0].s), sep.value);
    return Ok(out);
  }

  /** The loop of `AllCode::call` over the lines, each written numbered from 1. */
  method WriteCodeLines(ls: seq<string>, sep: string) returns (out: string)
    ensures out == CodeLines(ls, sep)
  {
    out := "";
    for i := 0 to |ls|
      invariant out == CodeLines(ls[..i], sep)
    {
      SlicePrefix(ls, i + 1, i);
      out := out + CodeLine(i + 1, ls[i], sep);
    }
    WholeSlice(ls);
  }

  /** The body of every line is shown escaped, and unescaping it with its indentation gives the line back. */
  lemma CodeLineShowsLine(line: string)
    ensures var (indent, body) := Html.SplitIndent(line); indent + Html.Unescape(Html.Escaped(body)) == line
  {
    Html.UnescapeEscaped(Html.SplitIndent(line).1);
  }

  /** The newlines of a text are those before a position, at it, and after it. */
  lemma CountCharAround(s: string, i: nat)
    requires i < |s|
    ensures Text.CountChar(s, '\n') == Text.CountChar(s[..i], '\n') + (if s[i] == '\n' then 1 else 0) + Text.CountChar(s[i + 1..], '\n')
  {
    var p := s[..i + 1];
    assert p[..|p| - 1] == s[..i];
    assert Text.CountChar(p, '\n') == Text.CountChar(s[..i], '\n') + (if s[i] == '\n' then 1 else 0);
    Text.CountCharAppend(p, s[i + 1..], '\n');
    assert p + s[i + 1..] == s;
  }

  /** Cutting at the first newline leaves one line and the lines of the rest. */
  lemma LinesAtNewline(s: string, i: nat)
    requires Text.IndexOf(s, '\n') == Some(i)
    ensures |Text.Lines(s)| == 1 + |Text.Lines(s[i + 1..])|
  {
  }

  /** 1 when the text ends with a line that has no newline, 0 otherwise. */
  function UnterminatedTail(s: string): nat {
    if s == [] || s[|s| - 1] == '\n' then 0 else 1
  }

  /** The text after the first newline ends the same way as the whole text. */
  lemma UnterminatedTailAfterNewline(s: string, i: nat)
    requires i < |s| && s[i] == '\n'
    ensures UnterminatedTail(s) == UnterminatedTail(s[i + 1..])
  {
    var rest := s[i + 1..];
    if rest != [] {
      assert rest[|rest| - 1] == s[|s| - 1];
    }
  }

  /** `lines()` of `s` has one line per newline, and one more for text after the last newline. */
  predicate LineCountMatches(s: string) {
    |Text.Lines(s)| == Text.CountChar(s, '\n') + UnterminatedTail(s)
  }

  /** One step of `LinesCount`: the count for the text after the first newline gives the count for the text. */
  lemma LinesCountStep(s: string, i: nat)
    requires Text.IndexOf(s, '\n') == Some(i)
    requires LineCountMatches(s[i + 1..])
    ensures LineCountMatches(s)
  {
    LinesAtNewline(s, i);
    CountCharAround(s, i);
    assert Text.CountChar(s[..i], '\n') == 0;
    UnterminatedTailAfterNewline(s, i);
  }

  /** A text without a newline is at most one line. */
  lemma LinesCountSingle(s: string)
    requires Text.IndexOf(s, '\n').None?
    ensures LineCountMatches(s)
  {
    if s != [] {
      assert Text.Lines(s) == [s];
      assert s[|s| - 1] != '\n';
    }
  }

  /** `lines()` gives one line per newline, and one more for text after the last newline. */
  lemma {:induction false} LinesCount(s: string)
    ensures LineCountMatches(s)
    decreases |s|
  {
    match Text.IndexOf(s, '\n')
    case None => LinesCountSingle(s);
    case Some(i) =>
      LinesCount(s[i + 1..]);
      LinesCountStep(s, i);
  }

  /**
    * As written, `AllLines` numbers the newlines while `AllCode` shows the lines: a file
    * whose last line has no newline gets one number too few.
    */
  lemma AllLinesMissesUnterminatedLine()
    ensures AllLines([Str("a")]) == Ok("")
    ensures AllCode([Str("a")]).Ok? && |Text.Lines("a")| == 1
  {
    assert Text.CountChar("a", '\n') == 0;
    assert Text.IndexOf("a", '\n') == None;
    assert Text.Lines("a") == ["a"];
  }

  /** The intended `AllLines`: a number for every line `AllCode` shows. */
  function IntendedAllLines(params: seq<Json>): Result<string, HelperError> {
    if |params| == 0 || !params[0].Str? then Err(RenderError(CodeNotString))
    else
      match Separator(params)
      case Err(e) => Err(e)
      case Ok(sep) => Ok(Numbered(1, |Text.Lines(params[0].s)| + 1, sep))
  }

  /**
    * The intended numbering gives `AllCode`'s lines their numbers, and agrees with the
    * code as written exactly when the text is empty or ends with a newline.
    */
  lemma IntendedAllLinesNumbersEveryLine(code: string, params: seq<Json>)
    requires |params| > 0 && params[0] == Str(code)
    ensures IntendedAllLines(params) == AllLines(params)
      <==> Separator(params).Err? || code == [] || code[|code| - 1] == '\n'
  {
    LinesCount(code);
    if Separator(params).Ok? && !(code == [] || code[|code| - 1] == '\n') {
      var sep := Separator(params).value;
      var n := Text.CountChar(code, '\n');
      NumberedSplit(1, n + 1, n + 2, sep);
      assert |Numbered(1, n + 2, sep)| > |Numbered(1, n + 1, sep)| by {
        assert |Text.NatToString(n + 1)| > 0;
      }
    }
  }

  // ---------------------------------------------------------------------------------
  // A finding's snippet

  /** An `i64` read as a `usize` by `as usize`: negative values wrap around. */
  function AsUsize(n: int): nat {
    n % 0x1_0000_0000_0000_0000
  }

  /** A line shown as part of the finding. */
  predicate Vulnerable(number: nat, start: int, end: int) {
    AsUsize(start) <= number <= AsUsize(end)
  }

  /** The finding's criticality, read only when a line is marked. */
  function CriticalityText(v: map<string, Json>): Option<string> {
    if "criticality" in v && v["criticality"].Str? then Some(v["criticality"].s) else None
  }

  /**
    * One line of the snippet: marked with the criticality and its body escaped when it is
    * one of the finding's lines, else escaped as a whole.
    */
  function MarkedLine(number: nat, line: string, start: int, end: int, crit: Option<string>, sep: string)
    : Result<string, HelperError>
  {
    if Vulnerable(number, start, end) then
      match crit
      case None => Err(Panic)
      case Some(c) =>
        var (indent, body) := Html.SplitIndent(line);
        Ok("<code class=\"vulnerable_line " + c + "\">" + indent + "<span class=\"line_body\">" + Html.Escaped(body)
          + "</span></code>" + sep)
    else Ok(Html.Escaped(line) + sep)
  }

  /** The lines of the snippet, the `i`-th numbered `i + first`, stopping at the first panic. */
  function MarkedLines(ls: seq<string>, first: nat, start: int, end: int, crit: Option<string>, sep: string)
    : Result<string, HelperError>
    decreases |ls|
  {
    if ls == [] then Ok("")
    else
      match MarkedLines(ls[..|ls| - 1], first, start, end, crit, sep)
      case Err(e) => Err(e)
      case Ok(before) =>
        match MarkedLine(|ls| - 1 + first, ls[|ls| - 1], start, end, crit, sep)
        case Err(e) => Err(e)
        case Ok(line) => Ok(before + line)
  }

  /** `HtmlCode`: the finding's snippet, numbered from the start of the window, its lines marked. */
  function HtmlCode(params: seq<Json>): Result<string, HelperError> {
    if |params| == 0 || !params[0].Object? then Err(RenderError(NotAVulnerability))
    else
      var v := params[0].fields;
      match Separator(params)
      case Err(e) => Err(e)
      case Ok(sep) =>
        match LineRange(v)
        case Err(e) => Err(e)
        case Ok(range) =>
          if "code" in v && v["code"].Str? then
            MarkedLines(Text.Lines(v["code"].s), Window(range.0, range.1).0, range.0, range.1, CriticalityText(v), sep)
          else Err(Panic)
  }

  /** Once a line has panicked, the later lines change nothing. */
  lemma {:induction false} MarkedLinesAfterPanic(ls: seq<string>, rest: seq<string>, first: nat, start: int, end: int,
    crit: Option<string>, sep: string)
    requires MarkedLines(ls, first, start, end, crit, sep).Err?
    ensures MarkedLines(ls + rest, first, start, end, crit, sep) == MarkedLines(ls, first, start, end, crit, sep)
    decreases |rest|
  {
    if rest == [] {
      assert ls + rest == ls;
    } else {
      assert (ls + rest)[..|ls + rest| - 1] == ls + rest[..|rest| - 1];
      MarkedLinesAfterPanic(ls, rest[..|rest| - 1], first, start, end, crit, sep);
    }
  }

  /** `HtmlCode::call`: the loop over the lines of the snippet. */
  method HtmlCodeCall(params: seq<Json>) returns (r: Result<string, HelperError>)
    ensures r == HtmlCode(params)
  {
    if |params| == 0 || !params[0].Object? {
      return Err(RenderError(NotAVulnerability));
    }
    var v := params[0].fields;
    var sep := Separator(params);
    if sep.Err? {
      return Err(sep.error);
    }
    var range := LineRange(v);
    if range.Err? {
      return Err(range.error);
    }
    var (start, end) := range.value;
    var first := Window(start, end).0;
    if !("code" in v && v["code"].Str?) {
      return Err(Panic);
    }
    r := WriteMarkedLines(Text.Lines(v["code"].s), first, start, end, CriticalityText(v), sep.value);
  }

  /** The loop of `HtmlCode::call` over the lines, which ends at the first panic. */
  method WriteMarkedLines(ls: seq<string>, first: nat, start: int, end: int, crit: Option<string>, sep: string)
    returns (r: Result<string, HelperError>)
    ensures r == MarkedLines(ls, first, start, end, crit, sep)
  {
    var out := "";
    for i := 0 to |ls|
      invariant MarkedLines(ls[..i], first, start, end, crit, sep) == Ok(out)
    {
      SlicePrefix(ls, i + 1, i);
      var line := MarkedLine(i + first, ls[i], start, end, crit, sep);
      if line.Err? {
        MarkedLinesAfterPanic(ls[..i + 1], ls[i + 1..], first, start, end, crit, sep);
        SplitAt(ls, i + 1);
        return Err(line.error);
      }
      out := out + line.value;
    }
    WholeSlice(ls);
    return Ok(out);
  }

  /**
    * For a finding on the lines `s` to `e` (counted from 0, stored from 1), the `k`-th line
    * of its snippet is marked exactly when it is one of the finding's lines: the snippet
    * starts at line `WindowStart(s)` of the file.
    */
  lemma HtmlCodeMarksFindingLines(s: nat, e: nat, k: nat)
    requires s <= e < 0x7FFF_FFFF_FFFF_FFFF
    ensures Vulnerable(Window(s + 1, e + 1).0 + k, s + 1, e + 1) <==> s <= Snippets.WindowStart(s) + k <= e
  {
  }

  // ---------------------------------------------------------------------------------
  // The menu of the source tree

  /** A menu entry: a folder with a `menu` array, or a file with a `path` and a `type`, both named. */
  predicate WellFormedEntry(v: Json)
    decreases v
  {
    v.Object? && "name" in v.fields && v.fields["name"].Str?
    && if "menu" in v.fields && v.fields["menu"].Array? then WellFormedMenu(v.fields["menu"].items)
       else "path" in v.fields && v.fields["path"].Str? && "type" in v.fields && v.fields["type"].Str?
  }

  predicate WellFormedMenu(menu: seq<Json>)
    decreases menu
  {
    forall i :: 0 <= i < |menu| ==> WellFormedEntry(menu[i])
  }

  /** The list item of a folder. */
  function FolderItem(name: string, inner: string): string {
    "<li><a href=\"#\" title=\"" + name + "\"><img src=\"../img/folder.svg\">" + name + "</a><ul>" + inner + "</ul></li>"
  }

  /** The list item of a file, linking to its page. */
  function FileItem(name: string, path: string, fileType: string): string {
    "<li><a href=\"" + path + ".html\" title=\"" + name + "\" target=\"code\"><img src=\"../img/" + fileType + ".svg\">"
      + name + "</a></li>"
  }

  /** `render_menu`: the entries in order, folders holding their own menu; any malformed entry is an error. */
  function MenuHtml(menu: seq<Json>): Result<string, HelperError>
    decreases menu
  {
    if menu == [] then Ok("")
    else
      match MenuHtml(menu[..|menu| - 1])
      case Err(e) => Err(e)
      case Ok(before) =>
        match EntryHtml(menu[|menu| - 1])
        case Err(e) => Err(e)
        case Ok(entry) => Ok(before + entry)
  }

  function EntryHtml(v: Json): Result<string, HelperError>
    decreases v
  {
    match v
    case Object(item) =>
      if !("name" in item && item["name"].Str?) then Err(RenderError(InvalidMenuObject))
      else if "menu" in item && item["menu"].Array? then
        match MenuHtml(item["menu"].items)
        case Err(e) => Err(e)
        case Ok(inner) => Ok(FolderItem(item["name"].s, inner))
      else if "path" in item && item["path"].Str? && "type" in item && item["type"].Str? then
        Ok(FileItem(item["name"].s, item["path"].s, item["type"].s))
      else Err(RenderError(InvalidMenuObject))
    case _ => Err(RenderError(InvalidMenuObject))
  }

  /** The menu renders exactly when every entry, at every depth, is well formed. */
  lemma {:induction false} MenuHtmlOk(menu: seq<Json>)
    ensures MenuHtml(menu).Ok? <==> WellFormedMenu(menu)
    decreases menu
  {
    if menu != [] {
      var init := menu[..|menu| - 1];
      MenuHtmlOk(init);
      EntryHtmlOk(menu[|menu| - 1]);
      assert WellFormedMenu(menu) <==> WellFormedMenu(init) && WellFormedEntry(menu[|menu| - 1]) by {
        assert forall i :: 0 <= i < |init| ==> init[i] == menu[i];
      }
    }
  }

  lemma {:induction false} EntryHtmlOk(v: Json)
    ensures EntryHtml(v).Ok? <==> WellFormedEntry(v)
    decreases v
  {
    if v.Object? && "menu" in v.fields && v.fields["menu"].Array? {
      MenuHtmlOk(v.fields["menu"].items);
    }
  }

  /** After an error, the later entries change nothing. */
  lemma {:induction false} MenuHtmlAfterError(menu: seq<Json>, rest: seq<Json>)
    requires MenuHtml(menu).Err?
    ensures MenuHtml(menu + rest) == MenuHtml(menu)
    decreases |rest|
  {
    if rest == [] {
      assert menu + rest == menu;
    } else {
      assert (menu + rest)[..|menu + rest| - 1] == menu + rest[..|rest| - 1];
      MenuHtmlAfterError(menu, rest[..|rest| - 1]);
    }
  }

  /** `render_menu`: the loop over the entries, recursing into folders. */
  method RenderMenu(menu: seq<Json>) returns (r: Result<string, HelperError>)
    ensures r == MenuHtml(menu)
    decreases menu
  {
    var out := "";
    for i := 0 to |menu|
      invariant MenuHtml(menu[..i]) == Ok(out)
    {
      SlicePrefix(menu, i + 1, i);
      var entry := RenderEntry(menu[i]);
      if entry.Err? {
        MenuHtmlAfterError(menu[..i + 1], menu[i + 1..]);
        SplitAt(menu, i + 1);
        return Err(entry.error);
      }
      out := out + entry.value;
    }
    WholeSlice(menu);
    return Ok(out);
  }

  /** One entry of `render_menu`. */
  method RenderEntry(v: Json) returns (r: Result<string, HelperError>)
    ensures r == EntryHtml(v)
    decreases v, 0
  {
    if !v.Object? {
      return Err(RenderError(InvalidMenuObject));
    }
    var item := v.fields;
    if !("name" in item && item["name"].Str?) {
      return Err(RenderError(InvalidMenuObject));
    }
    if "menu" in item && item["menu"].Array? {
      var inner := RenderMenu(item["menu"].items);
      if inner.Err? {
        return Err(inner.error);
      }
      return Ok(FolderItem(item["name"].s, inner.value));
    }
    if !("path" in item && item["path"].Str? && "type" in item && item["type"].Str?) {
      return Err(RenderError(InvalidMenuObject));
    }
    return Ok(FileItem(item["name"].s, item["path"].s, item["type"].s));
  }

  /** `GenerateMenu`: the menu array as a list. */
  function GenerateMenu(params: seq<Json>): (r: Result<string, HelperError>)
    ensures r.Ok? ==> |params| > 0 && params[0].Array? && WellFormedMenu(params[0].items)
  {
    if |params| == 0 || !params[0].Array? then Err(RenderError(MenuNotArray))
    else
      MenuHtmlOk(params[0].items);
      match MenuHtml(params[0].items)
      case Err(e) => Err(e)
      case Ok(inner) => Ok("<ul>" + inner + "</ul>")
  }
}
