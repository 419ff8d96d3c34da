/**
  * The rules of the code analysis: what a rule holds, which files it applies to, and how
  * the rule file is filtered by criticality and checked before use.
  *
  * Regular expressions come from the `regex` crate, which is not part of this model. A
  * compiled expression is a value that answers the questions the analysis asks of it:
  * its named capture groups, whether it matches a text, the matches `find_iter` yields
  * on a text, and the named groups `captures` reads from a text.
  */
module CodeRules {
  import opened Common
  import opened Criticalities
  import Text
  import Permissions

  /** The positions where a match starts and ends in the text searched. */
  datatype Span = Span(start: nat, end: nat)

  /** A match never ends before it starts. */
  type Match = m: Span | m.start <= m.end witness Span(0, 0)

  /**
    * A compiled regular expression, as the analysis uses it. `captures` gives `None`
    * where the expression does not match, and otherwise the text of each named group
    * that took part in the match.
    */
  datatype Regex = Regex(
    captureNames: set<string>,
    isMatch: string -> bool,
    findIter: string -> seq<Match>,
    captures: string -> Option<map<string, string>>)

  /** `Rule`, as the rule file describes it once deserialized; `name` is its `label`. */
  datatype Rule = Rule(
    regex: Regex,
    permissions: seq<Permissions.Permission>,
    forwardCheck: Option<string>,
    maxSdk: Option<U32>,
    whitelist: seq<Regex>,
    name: string,
    description: string,
    criticality: Criticality,
    includeFileRegex: Option<Regex>,
    excludeFileRegex: Option<Regex>)

  /**
    * Which files a rule applies to: every file when neither file expression is set; when
    * an exclude expression is set, the files it does not match, whatever the include
    * expression says; otherwise the files the include expression matches.
    */
  predicate FileSelected(includeRegex: Option<Regex>, excludeRegex: Option<Regex>, filename: string) {
    match excludeRegex
    case Some(x) => !x.isMatch(filename)
    case None => includeRegex.None? || includeRegex.value.isMatch(filename)
  }

  /** `has_to_check`: a flag set by the include expression, then overwritten by the exclude one. */
  method HasToCheck(rule: Rule, filename: string) returns (b: bool)
    ensures b == FileSelected(rule.includeFileRegex, rule.excludeFileRegex, filename)
  {
    if rule.includeFileRegex.None? && rule.excludeFileRegex.None? {
      return true;
    }
    b := false;
    if rule.includeFileRegex.Some? {
      b := rule.includeFileRegex.value.isMatch(filename);
    }
    if rule.excludeFileRegex.Some? {
      b := !rule.excludeFileRegex.value.isMatch(filename);
    }
  }

  /**
    * The cases the unit tests go through, for any file expressions that match or not as
    * they say: both unset selects; an include alone selects exactly what it matches; an
    * exclude that matches rejects even a file the include matches; and a file that
    * neither matches is selected once an exclude is set.
    */
  lemma FileSelectedCases(i: Regex, x: Regex, f: string)
    ensures FileSelected(None, None, f)
    ensures FileSelected(Some(i), None, f) <==> i.isMatch(f)
    ensures x.isMatch(f) ==> !FileSelected(Some(i), Some(x), f) && !FileSelected(None, Some(x), f)
    ensures !i.isMatch(f) && !x.isMatch(f) ==> FileSelected(Some(i), Some(x), f)
  {
  }

  /** Why a list of whitelist expressions cannot be read. */
  datatype ListError = NotAString | InvalidRegex(source: string)

  /**
    * The whitelist as `RegexSeqVisitor` reads it: the elements in order, each a string
    * (`None` stands for an element that is not one) compiled by `compile`; the first
    * element that fails decides the error.
    */
  function CompiledList(elements: seq<Option<string>>, compile: string -> Option<Regex>): (r: Result<seq<Regex>, ListError>)
    ensures r.Ok? ==> |r.value| == |elements|
    decreases |elements|
  {
    if elements == [] then Ok([])
    else
      match CompiledList(elements[..|elements| - 1], compile)
      case Err(e) => Err(e)
      case Ok(rs) =>
        match elements[|elements| - 1]
        case None => Err(NotAString)
        case Some(s) =>
          match compile(s)
          case None => Err(InvalidRegex(s))
          case Some(x) => Ok(rs + [x])
  }

  /** Once an element fails, the elements after it change nothing. */
  lemma {:induction false} CompiledListAfterError(elements: seq<Option<string>>, rest: seq<Option<string>>,
    compile: string -> Option<Regex>)
    requires CompiledList(elements, compile).Err?
    ensures CompiledList(elements + rest, compile) == CompiledList(elements, compile)
    decreases |rest|
  {
    if rest == [] {
      assert elements + rest == elements;
    } else {
      assert (elements + rest)[..|elements + rest| - 1] == elements + rest[..|rest| - 1];
      CompiledListAfterError(elements, rest[..|rest| - 1], compile);
    }
  }

  /**
    * The list is read exactly when every element is a string that compiles, and then
    * holds the compiled elements in order.
    */
  lemma {:induction false} CompiledListOk(elements: seq<Option<string>>, compile: string -> Option<Regex>)
    ensures CompiledList(elements, compile).Ok? <==>
      forall i :: 0 <= i < |elements| ==> elements[i].Some? && compile(elements[i].value).Some?
    ensures CompiledList(elements, compile).Ok? ==>
      forall i :: 0 <= i < |elements| ==> Some(CompiledList(elements, compile).value[i]) == compile(elements[i].value)
    decreases |elements|
  {
    if elements != [] {
      var n := |elements| - 1;
      CompiledListOk(elements[..n], compile);
      assert forall i :: 0 <= i < n ==> elements[..n][i] == elements[i];
    }
  }

  /** `visit_seq` of `RegexSeqVisitor`: reads and compiles the elements until one fails. */
  method CompileList(elements: seq<Option<string>>, compile: string -> Option<Regex>) returns (r: Result<seq<Regex>, ListError>)
    ensures r == CompiledList(elements, compile)
  {
    var list: seq<Regex> := [];
    var i := 0;
    while i < |elements|
      invariant 0 <= i <= |elements|
      invariant CompiledList(elements[..i], compile) == Ok(list)
    {
      SlicePrefix(elements, i + 1, i);
      match elements[i] {
        case None =>
          r := Err(NotAString);
        case Some(s) =>
          match compile(s) {
            case None => r := Err(InvalidRegex(s));
            case Some(x) =>
              list := list + [x];
              i := i + 1;
              continue;
          }
      }
      CompiledListAfterError(elements[..i + 1], elements[i + 1..], compile);
      SplitAt(elements, i + 1);
      return;
    }
    WholeSlice(elements);
    return Ok(list);
  }

  /** Why a rule is refused: a capture group the forward check has no placeholder for. */
  datatype RuleError = Fc1WithoutPlaceholder | Fc2WithoutPlaceholder

  /**
    * The check of one rule: a rule without a forward check passes; otherwise a `fc1`
    * group in the expression needs `{fc1}` in the forward check, and then a `fc2` group
    * needs `{fc2}`. Placeholders without groups and `fc2` without `fc1` are only warned
    * about.
    */
  function Validate(rule: Rule): (r: Result<Rule, RuleError>)
    ensures r.Ok? ==> r.value == rule
    ensures rule.forwardCheck.None? ==> r.Ok?
    ensures r.Ok? <==>
      rule.forwardCheck.None?
      || (("fc1" in rule.regex.captureNames ==> Text.Contains(rule.forwardCheck.value, "{fc1}"))
        && ("fc2" in rule.regex.captureNames ==> Text.Contains(rule.forwardCheck.value, "{fc2}")))
    ensures r == Err(Fc1WithoutPlaceholder) <==>
      rule.forwardCheck.Some? && "fc1" in rule.regex.captureNames && !Text.Contains(rule.forwardCheck.value, "{fc1}")
  {
    match rule.forwardCheck
    case None => Ok(rule)
    case Some(fc) =>
      if "fc1" in rule.regex.captureNames && !Text.Contains(fc, "{fc1}") then Err(Fc1WithoutPlaceholder)
      else if "fc2" in rule.regex.captureNames && !Text.Contains(fc, "{fc2}") then Err(Fc2WithoutPlaceholder)
      else Ok(rule)
  }

  /** The rules whose criticality is at least `min`, in their order in the file. */
  function Kept(rules: seq<Rule>, min: Criticality): seq<Rule>
    decreases |rules|
  {
    if rules == [] then []
    else Kept(rules[..|rules| - 1], min) + (if Le(min, rules[|rules| - 1].criticality) then [rules[|rules| - 1]] else [])
  }

  /** Keeping distributes over concatenation, which is what "in their order" means. */
  lemma {:induction false} KeptAppend(a: seq<Rule>, b: seq<Rule>, min: Criticality)
    ensures Kept(a + b, min) == Kept(a, min) + Kept(b, min)
    decreases |b|
  {
    if b == [] {
      assert a + b == a;
    } else {
      var n := |b| - 1;
      assert (a + b)[..|a + b| - 1] == a + b[..n];
      KeptAppend(a, b[..n], min);
      ConcatAssoc(Kept(a, min), Kept(b[..n], min), if Le(min, b[n].criticality) then [b[n]] else []);
    }
  }

  /** A rule is kept exactly when it is in the file and its criticality is at least `min`. */
  lemma {:induction false} KeptMembers(rules: seq<Rule>, min: Criticality)
    ensures forall r :: r in Kept(rules, min) <==> r in rules && Le(min, r.criticality)
    ensures |Kept(rules, min)| <= |rules|
    decreases |rules|
  {
    if rules != [] {
      var n := |rules| - 1;
      KeptMembers(rules[..n], min);
      assert rules == rules[..n] + [rules[n]];
    }
  }

  /** Why `load_rules` gives no rules: the file could not be read or parsed, or a rule is refused. */
  datatype LoadError = Unparsable(message: string) | Refused(error: RuleError)

  /** The first refusal among the rules, in order, if any. */
  function FirstRefusal(rules: seq<Rule>): (r: Option<RuleError>)
    ensures r.None? <==> forall i :: 0 <= i < |rules| ==> Validate(rules[i]).Ok?
    ensures r.Some? ==>
      exists i :: 0 <= i < |rules| && Validate(rules[i]) == Err(r.value) && forall j :: 0 <= j < i ==> Validate(rules[j]).Ok?
  {
    if rules == [] then None
    else
      match Validate(rules[0])
      case Err(e) => Some(e)
      case Ok(_) =>
        var rest := FirstRefusal(rules[1..]);
        assert forall i :: 1 <= i < |rules| ==> rules[1..][i - 1] == rules[i];
        if rest.Some? then
          ghost var k :| 0 <= k < |rules[1..]| && Validate(rules[1..][k]) == Err(rest.value)
            && forall j :: 0 <= j < k ==> Validate(rules[1..][j]).Ok?;
          assert Validate(rules[k + 1]) == Err(rest.value);
          rest
        else rest
  }

  /**
    * `load_rules`, once the rule file is parsed (`parsed` is what `serde_json` gives):
    * the rules below `min` are dropped, the rest are checked in order, and the first
    * refusal makes the whole load fail.
    */
  function LoadRules(parsed: Result<seq<Rule>, string>, min: Criticality): (r: Result<seq<Rule>, LoadError>)
    ensures parsed.Err? ==> r == Err(Unparsable(parsed.error))
    ensures parsed.Ok? && r.Ok? ==> r.value == Kept(parsed.value, min)
    ensures parsed.Ok? ==> (r.Ok? <==> forall i :: 0 <= i < |Kept(parsed.value, min)| ==> Validate(Kept(parsed.value, min)[i]).Ok?)
  {
    match parsed
    case Err(m) => Err(Unparsable(m))
    case Ok(rules) =>
      var kept := Kept(rules, min);
      match FirstRefusal(kept)
      case Some(e) => Err(Refused(e))
      case None => Ok(kept)
  }

  /**
    * What a successful load gives: exactly the rules of the file at or above `min`,
    * in their order, every one of which passes the check.
    */
  lemma LoadedRules(rules: seq<Rule>, min: Criticality)
    requires LoadRules(Ok(rules), min).Ok?
    ensures forall r :: r in LoadRules(Ok(rules), min).value <==> r in rules && Le(min, r.criticality)
    ensures forall r :: r in LoadRules(Ok(rules), min).value ==> Validate(r).Ok?
  {
    KeptMembers(rules, min);
  }

  /**
    * One refused rule at or above `min` fails the whole load, with the error of the
    * first such rule; refused rules below `min` are never checked.
    */
  lemma OneRefusalFailsLoad(before: seq<Rule>, rule: Rule, after: seq<Rule>, min: Criticality)
    requires forall r :: r in before && Le(min, r.criticality) ==> Validate(r).Ok?
    requires Le(min, rule.criticality) && Validate(rule).Err?
    ensures LoadRules(Ok(before + [rule] + after), min) == Err(Refused(Validate(rule).error))
  {
    KeptAppend(before + [rule], after, min);
    KeptAppend(before, [rule], min);
    assert [rule][..0] == [];
    assert Kept([rule], min) == [rule];
    KeptMembers(before, min);
    var kept := Kept(before + [rule] + after, min);
    var k := |Kept(before, min)|;
    assert kept[k] == rule;
    assert forall j :: 0 <= j < k ==> kept[j] == Kept(before, min)[j];
    FirstRefusalAt(kept, k);
  }

  /** The first refusal is that of the first rule that is refused. */
  lemma {:induction false} FirstRefusalAt(rules: seq<Rule>, k: nat)
    requires k < |rules| && Validate(rules[k]).Err?
    requires forall j :: 0 <= j < k ==> Validate(rules[j]).Ok?
    ensures FirstRefusal(rules) == Some(Validate(rules[k]).error)
    decreases k
  {
    if k > 0 {
      assert forall j :: 0 <= j < k - 1 ==> rules[1..][j] == rules[j + 1];
      FirstRefusalAt(rules[1..], k - 1);
    }
  }
}
