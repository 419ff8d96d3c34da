/** The severity scale of a vulnerability, from a mere warning up to critical. */
module Criticalities {
  import opened Common
  import Text

  datatype Criticality = Warning | Low | Medium | High | Critical

  /** Position in the declaration; the derived `Ord` compares these positions. */
  function Rank(c: Criticality): nat {
    match c
    case Warning => 0
    case Low => 1
    case Medium => 2
    case High => 3
    case Critical => 4
  }

  predicate Le(a: Criticality, b: Criticality) { Rank(a) <= Rank(b) }

  predicate Lt(a: Criticality, b: Criticality) { Rank(a) < Rank(b) }

  /** The derived order is total and antisymmetric, and runs Warning < Low < Medium < High < Critical. */
  lemma {:induction false} TotalOrder(a: Criticality, b: Criticality, c: Criticality)
    ensures Le(a, b) || Le(b, a)
    ensures Le(a, b) && Le(b, a) ==> a == b
    ensures Le(a, b) && Le(b, c) ==> Le(a, c)
    ensures Lt(Warning, Low) && Lt(Low, Medium) && Lt(Medium, High) && Lt(High, Critical)
    ensures Le(Warning, a) && Le(a, Critical)
  {
    match a {
      case Warning =>
      case Low =>
      case Medium =>
      case High =>
      case Critical =>
    }
  }

  /** `Display`: the variant name in lower case. */
  function ToString(c: Criticality): string {
    match c
    case Warning => "warning"
    case Low => "low"
    case Medium => "medium"
    case High => "high"
    case Critical => "critical"
  }

  /**
    * `FromStr`: the input is lower-cased and compared with the five names; any other
    * text is an error naming the input.
    */
  function FromStr(s: string): (r: Result<Criticality, string>)
    ensures r.Ok? ==> ToString(r.value) == Text.ToLower(s)
    ensures r.Err? <==> Text.ToLower(s) !in {"critical", "high", "medium", "low", "warning"}
  {
    match Text.ToLower(s)
    case "critical" => Ok(Critical)
    case "high" => Ok(High)
    case "medium" => Ok(Medium)
    case "low" => Ok(Low)
    case "warning" => Ok(Warning)
    case _ => Err("could not parse " + s + " as a Criticality")
  }

  lemma ToStringIsLower(c: Criticality)
    ensures Text.ToLower(ToString(c)) == ToString(c)
  {
    var s := ToString(c);
    forall i | 0 <= i < |s| ensures Text.LowerChar(s[i]) == s[i] {
      assert 'a' <= s[i] <= 'z';
    }
  }

  /** Printing then parsing gives back the same criticality. */
  lemma {:induction false} FromStrToString(c: Criticality)
    ensures FromStr(ToString(c)) == Ok(c)
  {
    ToStringIsLower(c);
  }

  /** Parsing ignores case: texts that agree once lower-cased parse alike. */
  lemma {:induction false} FromStrIgnoresCase(s: string, t: string)
    requires Text.ToLower(s) == Text.ToLower(t)
    ensures FromStr(s).Ok? <==> FromStr(t).Ok?
    ensures FromStr(s).Ok? ==> FromStr(s) == FromStr(t)
  {
  }

  /** Upper-case and mixed-case spellings parse as their lower-case name; a prefix of a name does not. */
  lemma FromStrExamples()
    ensures FromStr("CRITICAL") == Ok(Critical)
    ensures FromStr("Medium") == Ok(Medium)
    ensures FromStr("WaRnInG") == Ok(Warning)
    ensures FromStr("crit").Err?
  {
    assert Text.ToLower("CRITICAL") == "critical";
    assert Text.ToLower("Medium") == "medium";
    assert Text.ToLower("WaRnInG") == "warning";
    assert Text.ToLower("crit") == "crit";
  }
}
