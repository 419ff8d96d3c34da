/**
  * The code analysis: the files of the decompiled application that are searched, the
  * rules that apply to each file, and the findings each match of a rule gives.
  *
  * The analysis runs on a pool of threads that pop files from a shared queue and push
  * findings into a shared list; here the files are analysed one after another, which
  * gives the same findings since they all end in the result sets.
  */
module CodeAnalysis {
  import opened Common
  import opened Criticalities
  import opened Vulnerabilities
  import opened CodeRules
  import opened ResultsStore
  import Text
  import Paths
  import Snippets
  import Permissions
  import Configs
  import L = ManifestLoading

  // ---------------------------------------------------------------------------------
  // Line numbers

  function Min(a: nat, b: nat): nat { if a < b then a else b }

  /** The line a position of `text` lies on, counted from 0: the newlines before it. */
  function LineFor(index: nat, text: string): nat {
    Text.CountChar(text[..Min(index, |text|)], '\n')
  }

  /**
    * `get_line_for`: walks the characters, stops at `index`, and counts the newlines
    * passed on the way.
    */
  method GetLineFor(index: nat, text: string) returns (line: nat)
    ensures line == LineFor(index, text)
  {
    line := 0;
    var i := 0;
    while i < |text|
      invariant 0 <= i <= |text| && i <= index
      invariant line == Text.CountChar(text[..i], '\n')
    {
      if i == index {
        break;
      }
      SlicePrefix(text, i + 1, i);
      if text[i] == '\n' {
        line := line + 1;
      }
      i := i + 1;
    }
  }

  /** A later position is never on an earlier line. */
  lemma LineForMonotone(i: nat, j: nat, text: string)
    requires i <= j
    ensures LineFor(i, text) <= LineFor(j, text)
  {
    var a := text[..Min(i, |text|)];
    var b := text[..Min(j, |text|)];
    assert b == a + b[|a|..];
    Text.CountCharAppend(a, b[|a|..], '\n');
  }

  /** From the end of the text on, every newline has been counted. */
  lemma LineForPastEnd(index: nat, text: string)
    requires index >= |text|
    ensures LineFor(index, text) == Text.CountChar(text, '\n')
  {
    WholeSlice(text);
  }

  // ---------------------------------------------------------------------------------
  // Which rules apply to a file

  /** What the code analysis asks of the manifest: its minimum SDK and the permissions it asks for. */
  datatype ManifestFacts = ManifestFacts(minSdk: nat, needed: set<Permissions.Permission>)

  /** A rule for SDK levels older than the application's minimum is of no use. */
  predicate SdkExcluded(rule: Rule, manifest: Option<ManifestFacts>) {
    manifest.Some? && rule.maxSdk.Some? && rule.maxSdk.value < manifest.value.minSdk
  }

  /**
    * Every permission the rule requires is asked for by the manifest; a rule that
    * requires some permission is therefore skipped when there is no manifest.
    */
  predicate PermissionsHeld(perms: seq<Permissions.Permission>, manifest: Option<ManifestFacts>) {
    perms == [] || (manifest.Some? && forall i :: 0 <= i < |perms| ==> perms[i] in manifest.value.needed)
  }

  /**
    * The gate of the `'check` loop: a rule is applied unless its SDK bound excludes it,
    * the file name is known and the rule does not select it, or a permission it requires
    * is not asked for.
    */
  predicate Applies(rule: Rule, manifest: Option<ManifestFacts>, filename: Option<string>) {
    !SdkExcluded(rule, manifest)
    && (filename.None? || FileSelected(rule.includeFileRegex, rule.excludeFileRegex, filename.value))
    && PermissionsHeld(rule.permissions, manifest)
  }

  /** The permission loop of the gate: the first permission missing skips the rule. */
  method RequiredPermissionsHeld(perms: seq<Permissions.Permission>, manifest: Option<ManifestFacts>) returns (held: bool)
    ensures held == PermissionsHeld(perms, manifest)
  {
    for i := 0 to |perms|
      invariant PermissionsHeld(perms[..i], manifest)
    {
      if manifest.None? || perms[i] !in manifest.value.needed {
        return false;
      }
      assert forall k :: 0 <= k < i + 1 ==> perms[..i + 1][k] == if k < i then perms[..i][k] else perms[i];
    }
    WholeSlice(perms);
    return true;
  }

  /** The whole gate, in the order of the source. */
  method RuleApplies(rule: Rule, manifest: Option<ManifestFacts>, filename: Option<string>) returns (applies: bool)
    ensures applies == Applies(rule, manifest, filename)
  {
    if manifest.Some? && rule.maxSdk.Some? && rule.maxSdk.value < manifest.value.minSdk {
      return false;
    }
    if filename.Some? {
      var check := HasToCheck(rule, filename.value);
      if !check {
        return false;
      }
    }
    applies := RequiredPermissionsHeld(rule.permissions, manifest);
  }

  // ---------------------------------------------------------------------------------
  // What a match gives

  /**
    * The text of a match, `&code[m.start()..m.end()]`. The `regex` crate only yields
    * matches inside the text with the start before the end; the bounds are clamped so
    * that the expression is defined for any match.
    */
  function MatchedText(code: string, m: Match): string {
    var hi := Min(m.end, |code|);
    code[Min(m.start, hi)..hi]
  }

  /** A whitelist expression matches the text. */
  predicate Whitelisted(whitelist: seq<Regex>, text: string) {
    exists i :: 0 <= i < |whitelist| && whitelist[i].isMatch(text)
  }

  /** The whitelist loop: the first expression that matches discards the match. */
  method IsWhitelisted(whitelist: seq<Regex>, text: string) returns (b: bool)
    ensures b == Whitelisted(whitelist, text)
  {
    for i := 0 to |whitelist|
      invariant forall k :: 0 <= k < i ==> !whitelist[k].isMatch(text)
    {
      if whitelist[i].isMatch(text) {
        return true;
      }
    }
    return false;
  }

  /**
    * The forward check with its placeholders filled in: every `{fc1}` replaced by the
    * text of the `fc1` group when that group took part, and then every `{fc2}` by that
    * of `fc2`.
    */
  function Substituted(check: string, caps: map<string, string>): string {
    var r := if "fc1" in caps then Text.Replace(check, "{fc1}", caps["fc1"]) else check;
    if "fc2" in caps then Text.Replace(r, "{fc2}", caps["fc2"]) else r
  }

  /** Without placeholders the forward check is used as written. */
  lemma SubstitutedWithoutPlaceholders(check: string, caps: map<string, string>)
    requires !Text.Contains(check, "{fc1}") && !Text.Contains(check, "{fc2}")
    ensures Substituted(check, caps) == check
  {
  }

  /**
    * The snippet of a finding from line `s` to line `e`: the corrected window of
    * `Snippets.IntendedSnippet`, from four lines before the start line to four lines after
    * the end line. It is `get_code`'s text as written whenever the finding starts at line 5
    * or later or lies on one line.
    */
  function FindingSnippet(code: string, s: nat, e: nat): (r: string)
    requires s <= e
    ensures var ls := Text.Lines(code);
      r == Snippets.JoinLines(ls[Snippets.Min(Snippets.WindowStart(s), |ls|)..Snippets.Min(e + 5, |ls|)])
    ensures s >= 5 || s == e ==> r == Snippets.Snippet(Text.Lines(code), |Text.Lines(code)|, s, e)
  {
    Snippets.IntendedSnippetCoversFinding(Text.Lines(code), s, e);
    Snippets.IntendedSnippet(Text.Lines(code), s, e)
  }

  /**
    * The finding for a match: the rule's criticality, label and description, the file,
    * the lines of the match's start and end, and the snippet around them.
    */
  function Finding(rule: Rule, file: string, code: string, m: Match): (v: Vulnerability)
    ensures v.criticality == rule.criticality && v.name == rule.name && v.description == rule.description
    ensures v.file == Some(file) && v.startLine == Some(LineFor(m.start, code)) && v.endLine == Some(LineFor(m.end, code))
    ensures v.startLine.value <= v.endLine.value
    ensures v.code == Some(FindingSnippet(code, v.startLine.value, v.endLine.value))
  {
    var s := LineFor(m.start, code);
    var e := LineFor(m.end, code);
    LineForMonotone(m.start, m.end, code);
    Vulnerability(rule.criticality, rule.name, rule.description, Some(file), Some(s), Some(e),
      Some(FindingSnippet(code, s, e)))
  }

  /** The findings of a sequence of matches, in order: the `i`-th for the `i`-th match. */
  function Findings(rule: Rule, file: string, code: string, ms: seq<Match>): seq<Vulnerability> {
    seq(|ms|, i requires 0 <= i < |ms| => Finding(rule, file, code, ms[i]))
  }

  /** The matches come from the list, pushing one finding each. */
  class FoundList {
    var items: seq<Vulnerability>

    constructor ()
      ensures items == []
    {
      items := [];
    }

    method Push(v: Vulnerability)
      modifies this
      ensures items == old(items) + [v]
    {
      items := items + [v];
    }
  }

  /** The loop over the matches of the forward check, one finding each. */
  method ReportMatches(rule: Rule, file: string, code: string, ms: seq<Match>, found: FoundList)
    modifies found
    ensures found.items == old(found.items) + Findings(rule, file, code, ms)
  {
    ghost var start := found.items;
    for i := 0 to |ms|
      invariant found.items == start + Findings(rule, file, code, ms[..i])
    {
      ghost var before := found.items;
      found.Push(Finding(rule, file, code, ms[i]));
      FindingsStep(rule, file, code, ms, i, start, before, found.items);
    }
    WholeSlice(ms);
  }

  /** The loop step of the forward-check matches: one more match pushes its finding. */
  lemma FindingsStep(rule: Rule, file: string, code: string, ms: seq<Match>, i: nat,
    start: seq<Vulnerability>, before: seq<Vulnerability>, after: seq<Vulnerability>)
    requires i < |ms|
    requires before == start + Findings(rule, file, code, ms[..i])
    requires after == before + [Finding(rule, file, code, ms[i])]
    ensures after == start + Findings(rule, file, code, ms[..i + 1])
  {
    var done, next := Findings(rule, file, code, ms[..i]), Findings(rule, file, code, ms[..i + 1]);
    assert next == done + [Finding(rule, file, code, ms[i])] by {
      forall k | 0 <= k < |next|
        ensures next[k] == (done + [Finding(rule, file, code, ms[i])])[k]
      {
        if k < i {
          assert ms[..i + 1][k] == ms[..i][k];
        }
      }
    }
  }

  /**
    * What one match of a rule gives: nothing when whitelisted; without a forward check,
    * its own finding; with one, a finding per match of the filled-in forward check in the
    * whole file. A forward check that does not compile ends the rule's matches, and a
    * match the rule's expression cannot capture again makes the `unwrap` panic.
    */
  datatype MatchOutcome = Reported(findings: seq<Vulnerability>) | Discarded | ForwardCheckInvalid | CapturePanic

  function MatchOutcomeOf(rule: Rule, file: string, code: string, m: Match, compile: string -> Option<Regex>): MatchOutcome {
    var text := MatchedText(code, m);
    if Whitelisted(rule.whitelist, text) then Discarded
    else
      match rule.forwardCheck
      case None => Reported([Finding(rule, file, code, m)])
      case Some(check) =>
        match rule.regex.captures(text)
        case None => CapturePanic
        case Some(caps) =>
          match compile(Substituted(check, caps))
          case None => ForwardCheckInvalid
          case Some(forward) => Reported(Findings(rule, file, code, forward.findIter(code)))
  }

  /** The `'rule` loop so far: the findings, and whether it has stopped and why. */
  datatype RuleScan = RuleScan(found: seq<Vulnerability>, stopped: bool, panicked: bool)

  function Scan(s: RuleScan, o: MatchOutcome): RuleScan {
    match o
    case Reported(vs) => s.(found := s.found + vs)
    case Discarded => s
    case ForwardCheckInvalid => s.(stopped := true)
    case CapturePanic => s.(stopped := true, panicked := true)
  }

  /** The `'rule` loop over the matches `ms` of a rule. */
  function RuleScanOf(rule: Rule, file: string, code: string, ms: seq<Match>, compile: string -> Option<Regex>): RuleScan
    decreases |ms|
  {
    if ms == [] then RuleScan([], false, false)
    else
      var before := RuleScanOf(rule, file, code, ms[..|ms| - 1], compile);
      if before.stopped then before else Scan(before, MatchOutcomeOf(rule, file, code, ms[|ms| - 1], compile))
  }

  /** Once the loop has stopped, the matches after that change nothing. */
  lemma {:induction false} RuleScanAfterStop(rule: Rule, file: string, code: string, ms: seq<Match>, rest: seq<Match>,
    compile: string -> Option<Regex>)
    requires RuleScanOf(rule, file, code, ms, compile).stopped
    ensures RuleScanOf(rule, file, code, ms + rest, compile) == RuleScanOf(rule, file, code, ms, compile)
    decreases |rest|
  {
    if rest == [] {
      assert ms + rest == ms;
    } else {
      assert (ms + rest)[..|ms + rest| - 1] == ms + rest[..|rest| - 1];
      RuleScanAfterStop(rule, file, code, ms, rest[..|rest| - 1], compile);
    }
  }

  lemma RuleScanStopsAt(rule: Rule, file: string, code: string, ms: seq<Match>, n: nat, compile: string -> Option<Regex>)
    requires n <= |ms| && RuleScanOf(rule, file, code, ms[..n], compile).stopped
    ensures RuleScanOf(rule, file, code, ms, compile) == RuleScanOf(rule, file, code, ms[..n], compile)
  {
    RuleScanAfterStop(rule, file, code, ms[..n], ms[n..], compile);
    SplitAt(ms, n);
  }

  /** One match of a rule, as `MatchOutcomeOf` says: what it pushes and whether the loop goes on. */
  method MatchStep(rule: Rule, file: string, code: string, m: Match, compile: string -> Option<Regex>, found: FoundList)
    returns (stop: bool, panicked: bool)
    modifies found
    ensures var s := Scan(RuleScan(old(found.items), false, false), MatchOutcomeOf(rule, file, code, m, compile));
      found.items == s.found && stop == s.stopped && panicked == s.panicked
  {
    stop, panicked := false, false;
    var text := MatchedText(code, m);
    var white := IsWhitelisted(rule.whitelist, text);
    if white {
      return;
    }
    match rule.forwardCheck {
      case None =>
        found.Push(Finding(rule, file, code, m));
      case Some(check) =>
        match rule.regex.captures(text) {
          case None =>
            stop, panicked := true, true;
          case Some(caps) =>
            match compile(Substituted(check, caps)) {
              case None =>
                stop := true;
              case Some(forward) =>
                ReportMatches(rule, file, code, forward.findIter(code), found);
            }
        }
    }
  }

  /** A step of the scan only adds to what was found, whatever was found before. */
  lemma ScanShift(before: RuleScan, o: MatchOutcome)
    requires !before.stopped && !before.panicked
    ensures var s := Scan(RuleScan([], false, false), o);
      Scan(before, o) == RuleScan(before.found + s.found, s.stopped, s.panicked)
  {
    ConcatNil(before.found);
  }

  /**
    * The `'rule` loop of a rule: the findings of its matches, in order, until a forward
    * check does not compile or a capture panics.
    */
  method RuleMatches(rule: Rule, file: string, code: string, compile: string -> Option<Regex>, found: FoundList)
    returns (panicked: bool)
    modifies found
    ensures var s := RuleScanOf(rule, file, code, rule.regex.findIter(code), compile);
      found.items == old(found.items) + s.found && panicked == s.panicked
  {
    var ms := rule.regex.findIter(code);
    ghost var f0 := found.items;
    var i := 0;
    while i < |ms|
      invariant 0 <= i <= |ms|
      invariant var s := RuleScanOf(rule, file, code, ms[..i], compile);
        !s.stopped && !s.panicked && found.items == f0 + s.found
    {
      ghost var before := RuleScanOf(rule, file, code, ms[..i], compile);
      ghost var o := MatchOutcomeOf(rule, file, code, ms[i], compile);
      SlicePrefix(ms, i + 1, i);
      assert RuleScanOf(rule, file, code, ms[..i + 1], compile) == Scan(before, o);
      ghost var f1 := found.items;
      var stop, p := MatchStep(rule, file, code, ms[i], compile, found);
      ScanShift(before, o);
      ConcatAssoc(f0, before.found, found.items[|f1|..]);
      if stop {
        RuleScanStopsAt(rule, file, code, ms, i + 1, compile);
        return p;
      }
      i := i + 1;
    }
    WholeSlice(ms);
    return false;
  }

  // ---------------------------------------------------------------------------------
  // One file

  /** The rules applied to one file so far: the findings, and whether a capture panicked. */
  datatype FileScan = FileScan(found: seq<Vulnerability>, panicked: bool)

  /**
    * The `'check` loop of `analyze_file` over `rules`: each rule that applies adds the
    * findings of its matches; a panic ends the loop.
    */
  function FileScanOf(rules: seq<Rule>, manifest: Option<ManifestFacts>, filename: Option<string>, file: string,
    code: string, compile: string -> Option<Regex>): FileScan
    decreases |rules|
  {
    if rules == [] then FileScan([], false)
    else
      var before := FileScanOf(rules[..|rules| - 1], manifest, filename, file, code, compile);
      if before.panicked then before else NextScan(before, rules[|rules| - 1], manifest, filename, file, code, compile)
  }

  /** One more rule: nothing when it does not apply, else the findings of its matches. */
  function NextScan(before: FileScan, rule: Rule, manifest: Option<ManifestFacts>, filename: Option<string>, file: string,
    code: string, compile: string -> Option<Regex>): FileScan
  {
    if !Applies(rule, manifest, filename) then before
    else
      var s := RuleScanOf(rule, file, code, rule.regex.findIter(code), compile);
      FileScan(before.found + s.found, s.panicked)
  }

  /** A rule adds the same findings whatever was found before it. */
  lemma NextScanShift(prefix: seq<Vulnerability>, before: FileScan, rule: Rule, manifest: Option<ManifestFacts>,
    filename: Option<string>, file: string, code: string, compile: string -> Option<Regex>)
    requires !before.panicked
    ensures var n := NextScan(before, rule, manifest, filename, file, code, compile);
      NextScan(FileScan(prefix + before.found, false), rule, manifest, filename, file, code, compile)
      == FileScan(prefix + n.found, n.panicked)
  {
    if Applies(rule, manifest, filename) {
      var s := RuleScanOf(rule, file, code, rule.regex.findIter(code), compile);
      ConcatAssoc(prefix, before.found, s.found);
    }
  }

  /** One turn of the `'check` loop: the gate, then the rule's matches. */
  method CheckRule(rule: Rule, manifest: Option<ManifestFacts>, filename: Option<string>, file: string,
    code: string, compile: string -> Option<Regex>, found: FoundList) returns (panicked: bool)
    modifies found
    ensures var n := NextScan(FileScan(old(found.items), false), rule, manifest, filename, file, code, compile);
      found.items == n.found && panicked == n.panicked
  {
    var applies := RuleApplies(rule, manifest, filename);
    if applies {
      panicked := RuleMatches(rule, file, code, compile, found);
    } else {
      panicked := false;
    }
  }

  /** After a panic the remaining rules change nothing. */
  lemma {:induction false} FileScanAfterPanic(rules: seq<Rule>, rest: seq<Rule>, manifest: Option<ManifestFacts>,
    filename: Option<string>, file: string, code: string, compile: string -> Option<Regex>)
    requires FileScanOf(rules, manifest, filename, file, code, compile).panicked
    ensures FileScanOf(rules + rest, manifest, filename, file, code, compile) == FileScanOf(rules, manifest, filename, file, code, compile)
    decreases |rest|
  {
    if rest == [] {
      assert rules + rest == rules;
    } else {
      assert (rules + rest)[..|rules + rest| - 1] == rules + rest[..|rest| - 1];
      FileScanAfterPanic(rules, rest[..|rest| - 1], manifest, filename, file, code, compile);
    }
  }

  /** A rule that does not apply to the file adds nothing, wherever it stands. */
  lemma {:induction false} InapplicableRuleAddsNothing(before: seq<Rule>, rule: Rule, after: seq<Rule>,
    manifest: Option<ManifestFacts>, filename: Option<string>, file: string, code: string, compile: string -> Option<Regex>)
    requires !Applies(rule, manifest, filename)
    ensures FileScanOf(before + [rule] + after, manifest, filename, file, code, compile)
      == FileScanOf(before + after, manifest, filename, file, code, compile)
    decreases |after|
  {
    if after == [] {
      assert (before + [rule] + after)[..|before + [rule] + after| - 1] == before;
      assert before + after == before;
    } else {
      var init := after[..|after| - 1];
      assert (before + [rule] + after)[..|before + [rule] + after| - 1] == before + [rule] + init;
      assert (before + after)[..|before + after| - 1] == before + init;
      assert (before + [rule] + after)[|before + [rule] + after| - 1] == (before + after)[|before + after| - 1];
      InapplicableRuleAddsNothing(before, rule, init, manifest, filename, file, code, compile);
    }
  }

  /** The `'check` loop: the rules that apply, in order, until a capture panics. */
  method AnalyzeRules(rules: seq<Rule>, manifest: Option<ManifestFacts>, filename: Option<string>, file: string,
    code: string, compile: string -> Option<Regex>, found: FoundList) returns (panicked: bool)
    modifies found
    ensures var s := FileScanOf(rules, manifest, filename, file, code, compile);
      found.items == old(found.items) + s.found && panicked == s.panicked
  {
    ghost var f0 := found.items;
    ConcatNil(f0);
    for i := 0 to |rules|
      invariant var s := FileScanOf(rules[..i], manifest, filename, file, code, compile);
        !s.panicked && found.items == f0 + s.found
    {
      ghost var before := FileScanOf(rules[..i], manifest, filename, file, code, compile);
      SlicePrefix(rules, i + 1, i);
      var p := CheckRule(rules[i], manifest, filename, file, code, compile, found);
      NextScanShift(f0, before, rules[i], manifest, filename, file, code, compile);
      if p {
        FileScanAfterPanic(rules[..i + 1], rules[i + 1..], manifest, filename, file, code, compile);
        SplitAt(rules, i + 1);
        return true;
      }
    }
    WholeSlice(rules);
    return false;
  }

  /** A path relative to the extracted application, as text. */
  function PathText(path: seq<string>): string
    decreases |path|
  {
    if path == [] then ""
    else if |path| == 1 then path[0]
    else PathText(path[..|path| - 1]) + "/" + path[|path| - 1]
  }

  /** The file name of a path: its last component. */
  function FileName(path: seq<string>): Option<string> {
    if path == [] then None else Some(path[|path| - 1])
  }

  /**
    * What `analyze_file` does for the file at `path` whose contents were read as `code`:
    * nothing when it could not be read, else the `'check` loop over the rules.
    */
  function FileResult(path: seq<string>, code: Option<string>, rules: seq<Rule>, manifest: Option<ManifestFacts>,
    compile: string -> Option<Regex>): FileScan
  {
    match code
    case None => FileScan([], false)
    case Some(text) => FileScanOf(rules, manifest, FileName(path), PathText(path), text, compile)
  }

  /** `analyze_file`: an unreadable file is reported and left; a readable one is searched with every rule. */
  method AnalyzeFile(path: seq<string>, code: Option<string>, rules: seq<Rule>, manifest: Option<ManifestFacts>,
    compile: string -> Option<Regex>, found: FoundList) returns (readable: bool, panicked: bool)
    modifies found
    ensures readable == code.Some?
    ensures var s := FileResult(path, code, rules, manifest, compile);
      found.items == old(found.items) + s.found && panicked == s.panicked
  {
    if code.None? {
      ConcatNil(found.items);
      return false, false;
    }
    readable := true;
    panicked := AnalyzeRules(rules, manifest, FileName(path), PathText(path), code.value, compile, found);
  }

  // ---------------------------------------------------------------------------------
  // All the files

  /** The files analysed so far: the findings, and the workers still alive. */
  datatype CodeScan = CodeScan(found: seq<Vulnerability>, live: nat)

  /** One more file taken by a live worker: its findings, and one worker fewer when it panics. */
  function NextFile(before: CodeScan, path: seq<string>, read: seq<string> -> Option<string>, rules: seq<Rule>,
    manifest: Option<ManifestFacts>, compile: string -> Option<Regex>): CodeScan
  {
    var f := FileResult(path, read(path), rules, manifest, compile);
    CodeScan(before.found + f.found, if f.panicked && before.live > 0 then before.live - 1 else before.live)
  }

  /**
    * The workers' loop from the state `s` on: while a worker is alive, one pops the last
    * file of the queue and analyses it. A worker whose file panics is gone, and once none
    * is left the files still queued are not analysed.
    */
  function CodeScanFrom(s: CodeScan, queue: seq<seq<string>>, read: seq<string> -> Option<string>, rules: seq<Rule>,
    manifest: Option<ManifestFacts>, compile: string -> Option<Regex>): CodeScan
    decreases |queue|
  {
    if queue == [] || s.live == 0 then s
    else CodeScanFrom(NextFile(s, queue[|queue| - 1], read, rules, manifest, compile), queue[..|queue| - 1],
      read, rules, manifest, compile)
  }

  /** The findings only grow, and the workers only die. */
  lemma {:induction false} CodeScanGrows(s: CodeScan, queue: seq<seq<string>>, read: seq<string> -> Option<string>,
    rules: seq<Rule>, manifest: Option<ManifestFacts>, compile: string -> Option<Regex>)
    ensures var t := CodeScanFrom(s, queue, read, rules, manifest, compile);
      s.found <= t.found && t.live <= s.live
    decreases |queue|
  {
    if queue != [] && s.live > 0 {
      var n := NextFile(s, queue[|queue| - 1], read, rules, manifest, compile);
      assert s.found <= n.found by {
        assert n.found[..|s.found|] == s.found;
      }
      CodeScanGrows(n, queue[..|queue| - 1], read, rules, manifest, compile);
    }
  }

  /**
    * More workers analyse at least as much: starting from the same findings with fewer
    * workers, the findings are those of the larger pool until the fewer run out, and a
    * prefix of them after.
    */
  lemma {:induction false} MoreWorkersFindMore(a: CodeScan, b: CodeScan, queue: seq<seq<string>>,
    read: seq<string> -> Option<string>, rules: seq<Rule>, manifest: Option<ManifestFacts>, compile: string -> Option<Regex>)
    requires a.found == b.found && a.live <= b.live
    ensures var x := CodeScanFrom(a, queue, read, rules, manifest, compile);
      var y := CodeScanFrom(b, queue, read, rules, manifest, compile);
      x.found <= y.found && (x.live > 0 ==> x.found == y.found && y.live - x.live == b.live - a.live)
    decreases |queue|
  {
    if queue != [] {
      if a.live == 0 {
        CodeScanGrows(b, queue, read, rules, manifest, compile);
      } else {
        var path := queue[|queue| - 1];
        MoreWorkersFindMore(NextFile(a, path, read, rules, manifest, compile), NextFile(b, path, read, rules, manifest, compile),
          queue[..|queue| - 1], read, rules, manifest, compile);
      }
    }
  }

  /** The workers of the code analysis: the queue is locked while a file is analysed, so they take turns, and a panic poisons the lock and ends them all. */
  function Workers(threads: nat): nat {
    if threads == 0 then 0 else 1
  }

  /** With the queue locked during the analysis, the findings are a prefix of those the free-running workers give. */
  lemma LockedQueueFindsLess(queue: seq<seq<string>>, read: seq<string> -> Option<string>,
    rules: seq<Rule>, manifest: Option<ManifestFacts>, compile: string -> Option<Regex>, threads: nat)
    ensures CodeScanFrom(CodeScan([], Workers(threads)), queue, read, rules, manifest, compile).found
      <= CodeScanFrom(CodeScan([], threads), queue, read, rules, manifest, compile).found
  {
    MoreWorkersFindMore(CodeScan([], Workers(threads)), CodeScan([], threads), queue, read, rules, manifest, compile);
  }

  /** A worker's turn: pop the file, read it and analyse it. */
  method TakeFile(path: seq<string>, live: nat, read: seq<string> -> Option<string>, rules: seq<Rule>,
    manifest: Option<ManifestFacts>, compile: string -> Option<Regex>, found: FoundList) returns (left: nat)
    modifies found
    ensures var n := NextFile(CodeScan(old(found.items), live), path, read, rules, manifest, compile);
      found.items == n.found && left == n.live
  {
    var readable, panicked := AnalyzeFile(path, read(path), rules, manifest, compile, found);
    left := if panicked && live > 0 then live - 1 else live;
  }

  /**
    * The workers' loop: pop a file from the end of the queue and analyse it, until the
    * queue is empty or no worker is left.
    */
  method AnalyzeFiles(files: seq<seq<string>>, read: seq<string> -> Option<string>, rules: seq<Rule>,
    manifest: Option<ManifestFacts>, compile: string -> Option<Regex>, workers: nat, found: FoundList)
    modifies found
    ensures found.items == CodeScanFrom(CodeScan(old(found.items), workers), files, read, rules, manifest, compile).found
  {
    ghost var goal := CodeScanFrom(CodeScan(found.items, workers), files, read, rules, manifest, compile);
    var left := files;
    var live := workers;
    while left != [] && live > 0
      invariant CodeScanFrom(CodeScan(found.items, live), left, read, rules, manifest, compile) == goal
      decreases |left|
    {
      var path := left[|left| - 1];
      left := left[..|left| - 1];
      live := TakeFile(path, live, read, rules, manifest, compile, found);
    }
  }

  // ---------------------------------------------------------------------------------
  // The files to analyse

  /**
    * A directory as read from disk: its entries in the order they are listed, or an
    * error. An entry is a file (anything that is not a directory), a directory with its
    * own listing, or an entry whose metadata could not be read.
    */
  datatype Entry = FileEntry(name: string) | DirEntry(name: string, listing: Listing) | BrokenEntry
  datatype Listing = Listing(entries: seq<Entry>) | Unlistable

  /** The library folders that are not analysed, relative to the extracted application. */
  predicate SkippedDir(path: seq<string>) {
    path == ["classes", "android"] || path == ["classes", "com", "google", "android", "gms"] || path == ["smali"]
  }

  /** An XML or Java file, other than the manifest and the generated resource classes. */
  predicate WantedName(name: string) {
    var ext := Paths.ExtensionOfName(name);
    ext.Some? && name != "AndroidManifest.xml" && name != "R.java" && !Text.StartsWith(name, "R$")
    && (ext.value == "xml" || ext.value == "java")
  }

  /**
    * A path found under `path` (not counting `path` itself): a wanted file whose
    * directories below `path` are neither skipped nor called `original`.
    */
  predicate FoundBelow(path: seq<string>, p: seq<string>) {
    |path| < |p| && p[..|path|] == path && WantedName(p[|p| - 1])
    && (forall k :: |path| < k < |p| ==> !SkippedDir(p[..k]))
    && (forall k :: |path| <= k < |p| - 1 ==> p[k] != "original")
  }

  /**
    * `add_files_to_vec` on the directory `path` whose listing is `listing`: the files
    * pushed, in order, and whether it finished without error. The files pushed before an
    * error stay pushed.
    */
  function Collect(path: seq<string>, listing: Listing): (r: (seq<seq<string>>, bool))
    ensures forall p :: p in r.0 ==> !SkippedDir(path) && FoundBelow(path, p)
    decreases listing
  {
    if SkippedDir(path) then ([], true)
    else
      match listing
      case Unlistable => ([], false)
      case Listing(es) => CollectEntries(path, es)
  }

  /** The loop over the entries of one directory, stopping at the first error. */
  function CollectEntries(path: seq<string>, es: seq<Entry>): (r: (seq<seq<string>>, bool))
    ensures forall p :: p in r.0 ==> FoundBelow(path, p)
    decreases es
  {
    if es == [] then ([], true)
    else
      var before := CollectEntries(path, es[..|es| - 1]);
      if !before.1 then before
      else
        match es[|es| - 1]
        case BrokenEntry => (before.0, false)
        case DirEntry(name, l) =>
          if name == "original" then before
          else
            var sub := Collect(path + [name], l);
            SubdirectoryFound(path, name, sub.0);
            (before.0 + sub.0, sub.1)
        case FileEntry(name) =>
          if WantedName(name) then (before.0 + [path + [name]], true) else before
  }

  /** What is found in a subdirectory that is neither skipped nor `original` is found below its parent. */
  lemma SubdirectoryFound(path: seq<string>, name: string, ps: seq<seq<string>>)
    requires name != "original"
    requires forall p :: p in ps ==> !SkippedDir(path + [name]) && FoundBelow(path + [name], p)
    ensures forall p :: p in ps ==> FoundBelow(path, p)
  {
    forall p | p in ps
      ensures FoundBelow(path, p)
    {
      var n := |path|;
      assert p[..n + 1] == path + [name];
      assert p[..n] == path;
      assert p[n] == name;
      forall k | n < k < |p|
        ensures !SkippedDir(p[..k])
      {
        if k == n + 1 {
          assert p[..k] == path + [name];
        }
      }
    }
  }

  /** After an error in a directory, its remaining entries are not read. */
  lemma {:induction false} CollectAfterError(path: seq<string>, es: seq<Entry>, rest: seq<Entry>)
    requires !CollectEntries(path, es).1
    ensures CollectEntries(path, es + rest) == CollectEntries(path, es)
    decreases |rest|
  {
    if rest == [] {
      assert es + rest == es;
    } else {
      assert (es + rest)[..|es + rest| - 1] == es + rest[..|rest| - 1];
      CollectAfterError(path, es, rest[..|rest| - 1]);
    }
  }

  lemma CollectStopsAt(path: seq<string>, es: seq<Entry>, n: nat)
    requires n <= |es| && !CollectEntries(path, es[..n]).1
    ensures CollectEntries(path, es) == CollectEntries(path, es[..n])
  {
    CollectAfterError(path, es[..n], es[n..]);
    SplitAt(es, n);
  }

  /** A tree every directory and entry of which can be read. */
  predicate Intact(listing: Listing)
    decreases listing
  {
    match listing
    case Unlistable => false
    case Listing(es) => IntactEntries(es)
  }

  predicate IntactEntries(es: seq<Entry>)
    decreases es
  {
    forall i :: 0 <= i < |es| ==> !es[i].BrokenEntry? && (es[i].DirEntry? ==> Intact(es[i].listing))
  }

  /** Reading an intact tree finishes without error. */
  lemma {:induction false} IntactCollects(path: seq<string>, listing: Listing)
    requires Intact(listing)
    ensures Collect(path, listing).1
    decreases listing
  {
    if !SkippedDir(path) {
      IntactEntriesCollect(path, listing.entries);
    }
  }

  lemma {:induction false} IntactEntriesCollect(path: seq<string>, es: seq<Entry>)
    requires IntactEntries(es)
    ensures CollectEntries(path, es).1
    decreases es
  {
    if es != [] {
      var init := es[..|es| - 1];
      assert IntactEntries(init) by {
        forall i | 0 <= i < |init|
          ensures !init[i].BrokenEntry? && (init[i].DirEntry? ==> Intact(init[i].listing))
        {
          assert init[i] == es[i];
        }
      }
      IntactEntriesCollect(path, init);
      var e := es[|es| - 1];
      if e.DirEntry? && e.name != "original" {
        IntactCollects(path + [e.name], e.listing);
      }
    }
  }

  /** The wanted files among a directory's entries, in order. */
  function WantedFiles(path: seq<string>, es: seq<Entry>): seq<seq<string>>
    decreases |es|
  {
    if es == [] then []
    else
      var before := WantedFiles(path, es[..|es| - 1]);
      var e := es[|es| - 1];
      if e.FileEntry? && WantedName(e.name) then before + [path + [e.name]] else before
  }

  /** A directory holding only files gives exactly its wanted files, in listing order. */
  lemma {:induction false} FlatDirectoryCollects(path: seq<string>, es: seq<Entry>)
    requires forall i :: 0 <= i < |es| ==> es[i].FileEntry?
    ensures CollectEntries(path, es) == (WantedFiles(path, es), true)
    decreases |es|
  {
    if es != [] {
      FlatDirectoryCollects(path, es[..|es| - 1]);
    }
  }

  /** The queue of files found, pushed to at the end. */
  class FileQueue {
    var paths: seq<seq<string>>

    constructor ()
      ensures paths == []
    {
      paths := [];
    }

    method Push(p: seq<string>)
      modifies this
      ensures paths == old(paths) + [p]
    {
      paths := paths + [p];
    }
  }

  /**
    * `add_files_to_vec`: a skipped folder adds nothing; otherwise each entry of the
    * listing in turn, descending into directories other than `original` and pushing the
    * wanted files; the first error ends the walk.
    */
  method AddFilesToVec(path: seq<string>, listing: Listing, vec: FileQueue) returns (ok: bool)
    modifies vec
    ensures vec.paths == old(vec.paths) + Collect(path, listing).0 && ok == Collect(path, listing).1
    decreases listing
  {
    if SkippedDir(path) {
      ConcatNil(vec.paths);
      return true;
    }
    if listing.Unlistable? {
      ConcatNil(vec.paths);
      return false;
    }
    var es := listing.entries;
    ghost var v0 := vec.paths;
    ConcatNil(v0);
    for i := 0 to |es|
      invariant var c := CollectEntries(path, es[..i]);
        c.1 && vec.paths == v0 + c.0
    {
      ghost var before := CollectEntries(path, es[..i]);
      SlicePrefix(es, i + 1, i);
      match es[i] {
        case BrokenEntry =>
          CollectStopsAt(path, es, i + 1);
          return false;
        case DirEntry(name, l) =>
          if name != "original" {
            ghost var v1 := vec.paths;
            var sub := AddFilesToVec(path + [name], l, vec);
            ConcatAssoc(v0, before.0, Collect(path + [name], l).0);
            if !sub {
              CollectStopsAt(path, es, i + 1);
              return false;
            }
          }
        case FileEntry(name) =>
          if WantedName(name) {
            ConcatAssoc(v0, before.0, [path + [name]]);
            vec.Push(path + [name]);
          }
      }
    }
    WholeSlice(es);
    return true;
  }

  // ---------------------------------------------------------------------------------
  // The analysis

  /** What the code analysis reads from the manifest, when there is one. */
  function FactsOf(manifest: Option<L.Manifest>): Option<ManifestFacts>
    reads if manifest.Some? then {manifest.value, manifest.value.permissions} else {}
  {
    if manifest.Some? then Some(ManifestFacts(manifest.value.minSdk, manifest.value.permissions.needed)) else None
  }

  /**
    * The findings of the whole code analysis, in the order they are found: none when the
    * rules cannot be loaded; else the files collected (even when collecting stopped at an
    * error), analysed by `workers` workers.
    */
  function CodeFindings(manifest: Option<ManifestFacts>, min: Criticality, workers: nat, parsed: Result<seq<Rule>, string>,
    tree: Listing, read: seq<string> -> Option<string>, compile: string -> Option<Regex>): seq<Vulnerability>
  {
    match LoadRules(parsed, min)
    case Err(_) => []
    case Ok(rules) => CodeScanFrom(CodeScan([], workers), Collect([], tree).0, read, rules, manifest, compile).found
  }

  /**
    * Every finding in `vs` is at least as critical as `min`, names its file, and starts
    * on a line no later than the one it ends on.
    */
  predicate WellFormed(vs: seq<Vulnerability>, min: Criticality) {
    forall v :: v in vs ==> Le(min, v.criticality) && v.file.Some? && LinesOrdered(v)
  }

  predicate LinesOrdered(v: Vulnerability) {
    v.startLine.Some? && v.endLine.Some? && v.startLine.value <= v.endLine.value
  }

  /** A finding of `rule` in `file`: the rule's criticality, label and description, the file, and lines in order. */
  predicate FromRule(v: Vulnerability, rule: Rule, file: string) {
    v.criticality == rule.criticality && v.name == rule.name && v.description == rule.description
    && v.file == Some(file) && LinesOrdered(v)
  }

  /** A rule's findings are its own. */
  lemma {:induction false} RuleScanFromRule(rule: Rule, file: string, code: string, ms: seq<Match>, compile: string -> Option<Regex>)
    ensures forall v :: v in RuleScanOf(rule, file, code, ms, compile).found ==> FromRule(v, rule, file)
    decreases |ms|
  {
    if ms != [] {
      var m := ms[|ms| - 1];
      RuleScanFromRule(rule, file, code, ms[..|ms| - 1], compile);
      var text := MatchedText(code, m);
      if rule.forwardCheck.Some? && !Whitelisted(rule.whitelist, text) && rule.regex.captures(text).Some? {
        var forward := compile(Substituted(rule.forwardCheck.value, rule.regex.captures(text).value));
        if forward.Some? {
          var fs := Findings(rule, file, code, forward.value.findIter(code));
          assert forall v :: v in fs ==> FromRule(v, rule, file);
        }
      }
    }
  }

  /** Only rules at least as critical as `min` give findings at least that critical. */
  lemma {:induction false} FileScanWellFormed(rules: seq<Rule>, min: Criticality, manifest: Option<ManifestFacts>,
    filename: Option<string>, file: string, code: string, compile: string -> Option<Regex>)
    requires forall r :: r in rules ==> Le(min, r.criticality)
    ensures WellFormed(FileScanOf(rules, manifest, filename, file, code, compile).found, min)
    decreases |rules|
  {
    if rules != [] {
      var rule := rules[|rules| - 1];
      FileScanWellFormed(rules[..|rules| - 1], min, manifest, filename, file, code, compile);
      RuleScanFromRule(rule, file, code, rule.regex.findIter(code), compile);
    }
  }

  lemma {:induction false} CodeScanWellFormed(s: CodeScan, queue: seq<seq<string>>, read: seq<string> -> Option<string>,
    rules: seq<Rule>, min: Criticality, manifest: Option<ManifestFacts>, compile: string -> Option<Regex>)
    requires WellFormed(s.found, min) && forall r :: r in rules ==> Le(min, r.criticality)
    ensures WellFormed(CodeScanFrom(s, queue, read, rules, manifest, compile).found, min)
    decreases |queue|
  {
    if queue != [] && s.live > 0 {
      var path := queue[|queue| - 1];
      if read(path).Some? {
        FileScanWellFormed(rules, min, manifest, FileName(path), PathText(path), read(path).value, compile);
      }
      CodeScanWellFormed(NextFile(s, path, read, rules, manifest, compile), queue[..|queue| - 1], read, rules, min, manifest, compile);
    }
  }

  /**
    * The code analysis reports nothing below the configured minimum criticality, and
    * every finding names its file and has its start line no later than its end line.
    */
  lemma CodeFindingsWellFormed(manifest: Option<ManifestFacts>, min: Criticality, workers: nat, parsed: Result<seq<Rule>, string>,
    tree: Listing, read: seq<string> -> Option<string>, compile: string -> Option<Regex>)
    ensures WellFormed(CodeFindings(manifest, min, workers, parsed, tree, read, compile), min)
  {
    var loaded := LoadRules(parsed, min);
    if loaded.Ok? {
      KeptMembers(parsed.value, min);
      CodeScanWellFormed(CodeScan([], workers), Collect([], tree).0, read, loaded.value, min, manifest, compile);
    }
  }

  /** Each finding goes into the result sets. */
  method ReportAll(vs: seq<Vulnerability>, results: Results)
    requires results.Valid()
    modifies results
    ensures results.Valid() && results.Info() == old(results.Info())
    ensures Extended(old(results.buckets), results.buckets, vs)
  {
    ghost var b0 := results.buckets;
    ExtendedNothing(b0);
    for i := 0 to |vs|
      invariant results.Valid() && results.Info() == old(results.Info())
      invariant Extended(b0, results.buckets, vs[..i])
    {
      L.Report(results, vs[i], b0, vs[..i]);
      assert vs[..i] + [vs[i]] == vs[..i + 1];
    }
    WholeSlice(vs);
  }

  /**
    * The code analysis with `workers` workers: load the rules (a failure ends it), queue
    * the files, analyse them and add every finding to the results.
    */
  method AnalyzeCode(manifest: Option<ManifestFacts>, min: Criticality, workers: nat, parsed: Result<seq<Rule>, string>,
    tree: Listing, read: seq<string> -> Option<string>, compile: string -> Option<Regex>, results: Results)
    requires results.Valid()
    modifies results
    ensures results.Valid() && results.Info() == old(results.Info())
    ensures Extended(old(results.buckets), results.buckets, CodeFindings(manifest, min, workers, parsed, tree, read, compile))
  {
    var loaded := LoadRules(parsed, min);
    if loaded.Err? {
      ExtendedNothing(results.buckets);
      return;
    }
    var vec := new FileQueue();
    var complete := AddFilesToVec([], tree, vec);
    ConcatNil(Collect([], tree).0);
    var found := new FoundList();
    AnalyzeFiles(vec.paths, read, loaded.value, manifest, compile, workers, found);
    ReportAll(found.items, results);
  }

  /** `analysis`: the queue stays locked while a file is analysed, so a single worker's findings. */
  method Analysis(manifest: Option<L.Manifest>, config: Configs.Config, parsed: Result<seq<Rule>, string>, tree: Listing,
    read: seq<string> -> Option<string>, compile: string -> Option<Regex>, results: Results)
    requires results.Valid()
    modifies results
    ensures results.Valid() && results.Info() == old(results.Info())
    ensures Extended(old(results.buckets), results.buckets,
      CodeFindings(FactsOf(manifest), config.minCriticality, Workers(config.threads), parsed, tree, read, compile))
  {
    AnalyzeCode(FactsOf(manifest), config.minCriticality, Workers(config.threads), parsed, tree, read, compile, results);
  }

  /** The older `analysis`: the queue is released before each file, so every thread is a worker until it panics. */
  method OldAnalysis(manifest: Option<L.Manifest>, config: Configs.Config, parsed: Result<seq<Rule>, string>, tree: Listing,
    read: seq<string> -> Option<string>, compile: string -> Option<Regex>, results: Results)
    requires results.Valid()
    modifies results
    ensures results.Valid() && results.Info() == old(results.Info())
    ensures Extended(old(results.buckets), results.buckets,
      CodeFindings(FactsOf(manifest), config.minCriticality, config.threads, parsed, tree, read, compile))
  {
    AnalyzeCode(FactsOf(manifest), config.minCriticality, config.threads, parsed, tree, read, compile, results);
  }
}
