/**
  * `Vulnerability`, one finding of the analysis: its two orderings and the shape of its
  * serialized form.
  *
  * The struct derives `Ord` (all seven fields, in declaration order) and `Eq`, and
  * implements `PartialOrd` by hand on five of the fields. The result buckets are
  * `BTreeSet`s, which use the derived `Ord`; its `Equal` is plain equality of values, so
  * a bucket is modelled as a Dafny `set`.
  */
module Vulnerabilities {
  import opened Common
  import opened Criticalities
  import opened JsonValues
  import Paths

  datatype Vulnerability = Vulnerability(
    criticality: Criticality,
    name: string,
    description: string,
    file: Option<string>,
    startLine: Option<nat>,
    endLine: Option<nat>,
    code: Option<string>)

  /** `std::cmp::Ordering`. */
  datatype Ordering = Less | Equal | Greater

  function Flip(o: Ordering): Ordering {
    match o
    case Less => Greater
    case Equal => Equal
    case Greater => Less
  }

  /** Lexicographic chaining: the second comparison decides only a tie. */
  function Then(o: Ordering, next: Ordering): Ordering {
    if o == Equal then next else o
  }

  function CmpInt(a: int, b: int): (o: Ordering)
    ensures o == Equal <==> a == b
    ensures o == Less <==> a < b
  {
    if a < b then Less else if a == b then Equal else Greater
  }

  /**
    * `str::cmp`: byte-wise lexicographic order, a proper prefix first. On code points this
    * is the same order, because UTF-8 preserves the order of code points.
    */
  function CmpString(a: string, b: string): Ordering
    decreases |a|
  {
    if a == [] then (if b == [] then Equal else Less)
    else if b == [] then Greater
    else Then(CmpInt(a[0] as int, b[0] as int), CmpString(a[1..], b[1..]))
  }

  /** `Option::cmp`: `None` first. */
  function CmpOptString(a: Option<string>, b: Option<string>): Ordering {
    match (a, b)
    case (None, None) => Equal
    case (None, Some(_)) => Less
    case (Some(_), None) => Greater
    case (Some(x), Some(y)) => CmpString(x, y)
  }

  function CmpOptNat(a: Option<nat>, b: Option<nat>): Ordering {
    match (a, b)
    case (None, None) => Equal
    case (None, Some(_)) => Less
    case (Some(_), None) => Greater
    case (Some(x), Some(y)) => CmpInt(x, y)
  }

  function CmpCriticality(a: Criticality, b: Criticality): Ordering {
    CmpInt(Rank(a), Rank(b))
  }

  /** The hand-written `partial_cmp`: criticality, file, start line, end line, then name. */
  function PartialCmp(a: Vulnerability, b: Vulnerability): Ordering {
    Then(CmpCriticality(a.criticality, b.criticality),
    Then(CmpOptString(a.file, b.file),
    Then(CmpOptNat(a.startLine, b.startLine),
    Then(CmpOptNat(a.endLine, b.endLine),
    CmpString(a.name, b.name)))))
  }

  /** The derived `Ord`, which the `BTreeSet` buckets use: every field, in declaration order. */
  function DerivedCmp(a: Vulnerability, b: Vulnerability): Ordering {
    Then(CmpCriticality(a.criticality, b.criticality),
    Then(CmpString(a.name, b.name),
    Then(CmpString(a.description, b.description),
    Then(CmpOptString(a.file, b.file),
    Then(CmpOptNat(a.startLine, b.startLine),
    Then(CmpOptNat(a.endLine, b.endLine),
    CmpOptString(a.code, b.code)))))))
  }

  /** String comparison is an antisymmetric order whose ties are exactly the equal strings. */
  lemma {:induction false} CmpStringLaws(a: string, b: string)
    ensures CmpString(a, b) == Equal <==> a == b
    ensures CmpString(b, a) == Flip(CmpString(a, b))
    decreases |a|
  {
    if a != [] && b != [] {
      CmpStringLaws(a[1..], b[1..]);
      assert a == [a[0]] + a[1..] && b == [b[0]] + b[1..];
    }
  }

  /** String comparison is transitive. */
  lemma {:induction false} CmpStringTransitive(a: string, b: string, c: string)
    requires CmpString(a, b) == Less && CmpString(b, c) == Less
    ensures CmpString(a, c) == Less
    decreases |a|
  {
    if a != [] && b != [] && c != [] && a[0] == b[0] == c[0] {
      CmpStringTransitive(a[1..], b[1..], c[1..]);
    }
  }

  lemma {:induction false} CmpOptStringLaws(a: Option<string>, b: Option<string>)
    ensures CmpOptString(a, b) == Equal <==> a == b
    ensures CmpOptString(b, a) == Flip(CmpOptString(a, b))
  {
    if a.Some? && b.Some? {
      CmpStringLaws(a.value, b.value);
    }
  }

  /**
    * `partial_cmp` ties exactly when criticality, file, lines and name agree; swapping the
    * operands flips the answer; description and code never matter.
    */
  lemma {:induction false} PartialCmpLaws(a: Vulnerability, b: Vulnerability, d: string, c: Option<string>)
    ensures PartialCmp(a, b) == Equal <==>
      a.criticality == b.criticality && a.file == b.file && a.startLine == b.startLine
      && a.endLine == b.endLine && a.name == b.name
    ensures PartialCmp(b, a) == Flip(PartialCmp(a, b))
    ensures PartialCmp(a.(description := d, code := c), b) == PartialCmp(a, b)
  {
    CmpStringLaws(a.name, b.name);
    CmpOptStringLaws(a.file, b.file);
  }

  /**
    * The derived order ties exactly on equal values, so a `BTreeSet` keyed by it holds each
    * distinct vulnerability once, like a mathematical set.
    */
  lemma {:induction false} DerivedCmpLaws(a: Vulnerability, b: Vulnerability)
    ensures DerivedCmp(a, b) == Equal <==> a == b
    ensures DerivedCmp(b, a) == Flip(DerivedCmp(a, b))
  {
    CmpStringLaws(a.name, b.name);
    CmpStringLaws(a.description, b.description);
    CmpOptStringLaws(a.file, b.file);
    CmpOptStringLaws(a.code, b.code);
  }

  /**
    * The two orderings disagree: `partial_cmp` calls two different findings equal when only
    * their descriptions differ, and it can put first the one the derived order puts last.
    */
  lemma OrderingsDisagree()
    ensures var a := Vulnerability(Low, "a", "x", Some("b.java"), Some(1), Some(1), None);
            var b := Vulnerability(Low, "a", "y", Some("b.java"), Some(1), Some(1), None);
            a != b && PartialCmp(a, b) == Equal && DerivedCmp(a, b) == Less
    ensures var a := Vulnerability(Low, "b", "", Some("a.java"), None, None, None);
            var b := Vulnerability(Low, "a", "", Some("b.java"), None, None, None);
            PartialCmp(a, b) == Less && DerivedCmp(a, b) == Greater
  {
    var x := Vulnerability(Low, "a", "x", Some("b.java"), Some(1), Some(1), None);
    var y := Vulnerability(Low, "a", "y", Some("b.java"), Some(1), Some(1), None);
    assert x.description != y.description;
    CmpStringLaws("a", "a");
    CmpStringLaws("b.java", "b.java");
    assert CmpString("x", "y") == Less;
    assert CmpString("a.java", "b.java") == Less;
    assert CmpString("b", "a") == Greater;
  }

  /** The keys of the serialized fields. */
  const KeyCriticality: string := "criticality"
  const KeyName: string := "name"
  const KeyDescription: string := "description"
  const KeyFile: string := "file"
  const KeyLanguage: string := "language"
  const KeyLine: string := "line"
  const KeyStartLine: string := "start_line"
  const KeyEndLine: string := "end_line"
  const KeyCode: string := "code"

  /** The number of fields announced to `serialize_struct`. */
  function DeclaredFieldCount(v: Vulnerability): nat {
    if v.code.Some? then (if v.startLine == v.endLine then 7 else 8) else 4
  }

  function OptStr(o: Option<string>): Json {
    match o
    case None => Null
    case Some(s) => Str(s)
  }

  /** The language the serializer reports: the extension of the file, when there is one. */
  function Language(v: Vulnerability): Option<string> {
    if v.file.None? then None else Paths.Extension(v.file.value)
  }

  /**
    * `Serialize`, given the language the file's extension yields: criticality (lower case),
    * name, description and file; with code, also the language, the 1-based line or line
    * range, and the code. `None` where the serializer panics: code without a language or
    * without its lines.
    */
  function SerializeWith(v: Vulnerability, language: Option<string>): (r: Option<seq<Field>>)
    ensures r.None? <==>
      (v.code.Some? && (language.None? || v.startLine.None?
                        || (v.startLine != v.endLine && v.endLine.None?)))
  {
    var crit := Field(KeyCriticality, Str(ToString(v.criticality)));
    var name := Field(KeyName, Str(v.name));
    var desc := Field(KeyDescription, Str(v.description));
    var file := Field(KeyFile, OptStr(v.file));
    if v.code.None? then Some([crit, name, desc, file])
    else if language.None? || v.startLine.None? then None
    else if v.startLine == v.endLine then
      Some([crit, name, desc, file, Field(KeyLanguage, Str(language.value)),
            Field(KeyLine, Number(v.startLine.value + 1)), Field(KeyCode, OptStr(v.code))])
    else if v.endLine.None? then None
    else
      Some([crit, name, desc, file, Field(KeyLanguage, Str(language.value)),
            Field(KeyStartLine, Number(v.startLine.value + 1)),
            Field(KeyEndLine, Number(v.endLine.value + 1)), Field(KeyCode, OptStr(v.code))])
  }

  /** `Serialize`: the fields above, with the file's extension as the language. */
  function Serialize(v: Vulnerability): (r: Option<seq<Field>>)
    ensures r.None? <==>
      (v.code.Some? && (Language(v).None? || v.startLine.None?
                        || (v.startLine != v.endLine && v.endLine.None?)))
  {
    SerializeWith(v, Language(v))
  }

  /** Without code, four fields are announced and emitted, ending with the file. */
  lemma {:induction false} SerializeWithoutCode(v: Vulnerability, language: Option<string>)
    requires v.code.None?
    ensures SerializeWith(v, language).Some?
    ensures |SerializeWith(v, language).value| == DeclaredFieldCount(v) == 4
    ensures Keys(SerializeWith(v, language).value) == [KeyCriticality, KeyName, KeyDescription, KeyFile]
    ensures SerializeWith(v, language).value[0].value == Str(ToString(v.criticality))
  {
    assert Keys(SerializeWith(v, language).value) == [KeyCriticality, KeyName, KeyDescription, KeyFile];
  }

  /**
    * With code and equal start and end lines, seven fields are announced and emitted: the
    * language, then the single line numbered from 1.
    */
  lemma {:induction false} SerializeSingleLine(v: Vulnerability, language: Option<string>)
    requires SerializeWith(v, language).Some? && v.code.Some? && v.startLine == v.endLine
    ensures |SerializeWith(v, language).value| == DeclaredFieldCount(v) == 7
    ensures Keys(SerializeWith(v, language).value) == [KeyCriticality, KeyName, KeyDescription, KeyFile, KeyLanguage, KeyLine, KeyCode]
    ensures SerializeWith(v, language).value[4].value == Str(language.value)
    ensures SerializeWith(v, language).value[5].value == Number(v.startLine.value + 1)
  {
    assert Keys(SerializeWith(v, language).value) == [KeyCriticality, KeyName, KeyDescription, KeyFile, KeyLanguage, KeyLine, KeyCode];
  }

  /**
    * With code and different start and end lines, eight fields are announced and emitted,
    * both lines numbered from 1.
    */
  lemma {:induction false} SerializeLineRange(v: Vulnerability, language: Option<string>)
    requires SerializeWith(v, language).Some? && v.code.Some? && v.startLine != v.endLine
    ensures |SerializeWith(v, language).value| == DeclaredFieldCount(v) == 8
    ensures Keys(SerializeWith(v, language).value) == [KeyCriticality, KeyName, KeyDescription, KeyFile, KeyLanguage, KeyStartLine, KeyEndLine, KeyCode]
    ensures SerializeWith(v, language).value[4].value == Str(language.value)
    ensures SerializeWith(v, language).value[5].value == Number(v.startLine.value + 1)
    ensures SerializeWith(v, language).value[6].value == Number(v.endLine.value + 1)
  {
    assert Keys(SerializeWith(v, language).value) == [KeyCriticality, KeyName, KeyDescription, KeyFile, KeyLanguage, KeyStartLine, KeyEndLine, KeyCode];
  }
}
