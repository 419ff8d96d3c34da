/**
  * The older results store: four buckets of findings (no warnings), each finding with one
  * optional line, and a hand-written `partial_cmp` over criticity, file, line and name.
  *
  * `Criticity` is not part of this model's sources; it is taken to have the four variants
  * the store matches on, ordered as declared, from `Low` to `Critical`.
  */
module ResultsOld {
  import opened Common
  import opened Vulnerabilities

  datatype Criticity = Low | Medium | High | Critical

  function CriticityRank(c: Criticity): nat {
    match c
    case Low => 0
    case Medium => 1
    case High => 2
    case Critical => 3
  }

  datatype OldVulnerability = OldVulnerability(
    name: string,
    description: string,
    file: Option<string>,
    line: Option<U32>,
    criticity: Criticity)

  function CmpCriticity(a: Criticity, b: Criticity): Ordering {
    CmpInt(CriticityRank(a), CriticityRank(b))
  }

  function CmpLine(a: Option<U32>, b: Option<U32>): Ordering {
    match (a, b)
    case (None, None) => Equal
    case (None, Some(_)) => Less
    case (Some(_), None) => Greater
    case (Some(x), Some(y)) => CmpInt(x, y)
  }

  /**
    * The hand-written `partial_cmp`: for each of criticity, file, line and name in turn, a
    * smaller key answers `Less`, a larger one `Greater`, and a tie moves on to the next key.
    */
  function OldPartialCmp(a: OldVulnerability, b: OldVulnerability): Ordering {
    var c := CmpCriticity(a.criticity, b.criticity);
    if c == Less then Less
    else if c == Greater then Greater
    else
      var f := CmpOptString(a.file, b.file);
      if f == Less then Less
      else if f == Greater then Greater
      else
        var l := CmpLine(a.line, b.line);
        if l == Less then Less
        else if l == Greater then Greater
        else
          var n := CmpString(a.name, b.name);
          if n == Less then Less
          else if n == Greater then Greater
          else Equal
  }

  /**
    * `partial_cmp` ties exactly when criticity, file, line and name all agree; swapping
    * the operands flips the answer; the description never matters; a lower criticity
    * always comes first.
    */
  lemma {:induction false} OldPartialCmpLaws(a: OldVulnerability, b: OldVulnerability, d: string)
    ensures OldPartialCmp(a, b) == Equal <==>
      a.criticity == b.criticity && a.file == b.file && a.line == b.line && a.name == b.name
    ensures OldPartialCmp(b, a) == Flip(OldPartialCmp(a, b))
    ensures OldPartialCmp(a.(description := d), b) == OldPartialCmp(a, b)
    ensures CriticityRank(a.criticity) < CriticityRank(b.criticity) ==> OldPartialCmp(a, b) == Less
  {
    CmpStringLaws(a.name, b.name);
    CmpOptStringLaws(a.file, b.file);
  }

  lemma {:induction false} CmpOptStringTransitive(a: Option<string>, b: Option<string>, c: Option<string>)
    requires CmpOptString(a, b) != Greater && CmpOptString(b, c) != Greater
    ensures CmpOptString(a, c) != Greater
    ensures CmpOptString(a, b) == Less || CmpOptString(b, c) == Less ==> CmpOptString(a, c) == Less
  {
    if a.Some? && b.Some? && c.Some? {
      CmpStringLaws(a.value, b.value);
      CmpStringLaws(b.value, c.value);
      CmpStringLaws(a.value, c.value);
      if CmpString(a.value, b.value) == Less && CmpString(b.value, c.value) == Less {
        CmpStringTransitive(a.value, b.value, c.value);
      }
    }
  }

  /** `partial_cmp`'s `Less` is transitive, so it orders findings consistently. */
  lemma {:induction false} OldPartialCmpTransitive(a: OldVulnerability, b: OldVulnerability, c: OldVulnerability)
    requires OldPartialCmp(a, b) == Less && OldPartialCmp(b, c) == Less
    ensures OldPartialCmp(a, c) == Less
  {
    if a.criticity == b.criticity == c.criticity {
      CmpOptStringLaws(a.file, b.file);
      CmpOptStringLaws(b.file, c.file);
      CmpOptStringLaws(a.file, c.file);
      CmpOptStringTransitive(a.file, b.file, c.file);
      if a.file == b.file == c.file && a.line == b.line == c.line {
        CmpStringTransitive(a.name, b.name, c.name);
      }
    }
  }

  class OldResults {
    var path: string
    var appPackage: string
    var appLabel: string
    var appDescription: string
    var appVersion: string
    /** The four buckets `low`, `medium`, `high` and `critical`, keyed by criticity. */
    var buckets: map<Criticity, set<OldVulnerability>>

    function Bucket(c: Criticity): set<OldVulnerability>
      reads this
    {
      if c in buckets then buckets[c] else {}
    }

    /** Every finding sits in the bucket of its own criticity. */
    predicate Valid()
      reads this
    {
      forall c: Criticity, v :: v in Bucket(c) ==> v.criticity == c
    }

    constructor (path: string)
      ensures Valid() && this.path == path
      ensures appPackage == appLabel == appDescription == appVersion == ""
      ensures forall c: Criticity :: Bucket(c) == {}
    {
      this.path := path;
      appPackage, appLabel, appDescription, appVersion := "", "", "", "";
      buckets := map[Low := {}, Medium := {}, High := {}, Critical := {}];
    }

    /**
      * `init`: the results live under `<resultsFolder>/<appId>`. A store is made when that
      * folder does not exist yet, or when `force` is set and the old folder could be
      * deleted; otherwise there is none.
      */
    static method Init(resultsFolder: string, appId: string, folderExists: bool, force: bool, removeSucceeds: bool)
      returns (r: Option<OldResults>)
      ensures r.Some? <==> (!folderExists || force) && (!folderExists || removeSucceeds)
      ensures r.Some? ==> fresh(r.value) && r.value.Valid() && r.value.path == resultsFolder + "/" + appId
      ensures r.Some? ==> forall c: Criticity :: r.value.Bucket(c) == {}
    {
      var path := resultsFolder + "/" + appId;
      if !folderExists || force {
        if folderExists && !removeSucceeds {
          return None;
        }
        var results := new OldResults(path);
        return Some(results);
      }
      return None;
    }

    method SetAppPackage(package: string)
      modifies this
      ensures appPackage == package && path == old(path)
      ensures appLabel == old(appLabel) && appDescription == old(appDescription) && appVersion == old(appVersion)
      ensures buckets == old(buckets)
    {
      appPackage := package;
    }

    method SetAppLabel(appLabelText: string)
      modifies this
      ensures appLabel == appLabelText && path == old(path)
      ensures appPackage == old(appPackage) && appDescription == old(appDescription) && appVersion == old(appVersion)
      ensures buckets == old(buckets)
    {
      appLabel := appLabelText;
    }

    method SetAppDescription(description: string)
      modifies this
      ensures appDescription == description && path == old(path)
      ensures appPackage == old(appPackage) && appLabel == old(appLabel) && appVersion == old(appVersion)
      ensures buckets == old(buckets)
    {
      appDescription := description;
    }

    method SetAppVersion(version: string)
      modifies this
      ensures appVersion == version && path == old(path)
      ensures appPackage == old(appPackage) && appLabel == old(appLabel) && appDescription == old(appDescription)
      ensures buckets == old(buckets)
    {
      appVersion := version;
    }

    /**
      * `add_vulnerability`: builds the finding and inserts it into the bucket of its
      * criticity only; a finding already there leaves the bucket as it was.
      */
    method AddVulnerability(name: string, description: string, file: Option<string>, line: Option<U32>, criticity: Criticity)
      requires Valid()
      modifies this
      ensures Valid()
      ensures var v := OldVulnerability(name, description, file, line, criticity);
        Bucket(criticity) == old(Bucket(criticity)) + {v}
        && (v in old(Bucket(criticity)) ==> Bucket(criticity) == old(Bucket(criticity)))
      ensures forall c: Criticity :: c != criticity ==> Bucket(c) == old(Bucket(c))
      ensures path == old(path) && appPackage == old(appPackage) && appLabel == old(appLabel)
      ensures appDescription == old(appDescription) && appVersion == old(appVersion)
    {
      var v := OldVulnerability(name, description, file, line, criticity);
      buckets := buckets[criticity := Bucket(criticity) + {v}];
      assert forall d: Criticity :: Bucket(d) == if d == criticity then old(Bucket(criticity)) + {v} else old(Bucket(d));
    }
  }
}
