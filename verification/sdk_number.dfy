/** The Android API levels as the results report them (`SdkNumber`), with release names and versions. */
module SdkNumbers {
  import opened Common
  import Text

  datatype SdkNumber =
    | Api1 | Api2 | Api3 | Api4 | Api5 | Api6 | Api7 | Api8 | Api9 | Api10 | Api11 | Api12 | Api13 | Api14 | Api15 | Api16 | Api17 | Api18 | Api19 | Api20 | Api21 | Api22 | Api23 | Api24 | Api25 | Api26 | Development | Unknown(level: U32)

  /** A release version: major.minor.patch and the build identifiers (the pre-release list is always empty here). */
  datatype Version = Version(major: nat, minor: nat, patch: nat, build: seq<string>)

  /** `number()`: the API level; Development is 10000 and Unknown keeps its level. */
  function Number(s: SdkNumber): U32 {
    match s
    case Api1 => 1
    case Api2 => 2
    case Api3 => 3
    case Api4 => 4
    case Api5 => 5
    case Api6 => 6
    case Api7 => 7
    case Api8 => 8
    case Api9 => 9
    case Api10 => 10
    case Api11 => 11
    case Api12 => 12
    case Api13 => 13
    case Api14 => 14
    case Api15 => 15
    case Api16 => 16
    case Api17 => 17
    case Api18 => 18
    case Api19 => 19
    case Api20 => 20
    case Api21 => 21
    case Api22 => 22
    case Api23 => 23
    case Api24 => 24
    case Api25 => 25
    case Api26 => 26
    case Development => 10000
    case Unknown(v) => v
  }

  /** `From<u32>`: levels 1..=26 and 10000 have their own variant, every other level is Unknown. */
  function FromNumber(n: U32): SdkNumber {
    match n
    case 1 => Api1
    case 2 => Api2
    case 3 => Api3
    case 4 => Api4
    case 5 => Api5
    case 6 => Api6
    case 7 => Api7
    case 8 => Api8
    case 9 => Api9
    case 10 => Api10
    case 11 => Api11
    case 12 => Api12
    case 13 => Api13
    case 14 => Api14
    case 15 => Api15
    case 16 => Api16
    case 17 => Api17
    case 18 => Api18
    case 19 => Api19
    case 20 => Api20
    case 21 => Api21
    case 22 => Api22
    case 23 => Api23
    case 24 => Api24
    case 25 => Api25
    case 26 => Api26
    case 10000 => Development
    case _ => Unknown(n)
  }

  /** Position in the declaration; the derived `Ord` compares it first and then the Unknown level. */
  function Rank(s: SdkNumber): nat {
    match s
    case Api1 => 0
    case Api2 => 1
    case Api3 => 2
    case Api4 => 3
    case Api5 => 4
    case Api6 => 5
    case Api7 => 6
    case Api8 => 7
    case Api9 => 8
    case Api10 => 9
    case Api11 => 10
    case Api12 => 11
    case Api13 => 12
    case Api14 => 13
    case Api15 => 14
    case Api16 => 15
    case Api17 => 16
    case Api18 => 17
    case Api19 => 18
    case Api20 => 19
    case Api21 => 20
    case Api22 => 21
    case Api23 => 22
    case Api24 => 23
    case Api25 => 24
    case Api26 => 25
    case Development => 26
    case Unknown(_) => 27
  }

  /** The derived `<`. */
  predicate Lt(a: SdkNumber, b: SdkNumber) {
    Rank(a) < Rank(b) || (a.Unknown? && b.Unknown? && a.level < b.level)
  }

  /** `version()`: the Android release version; Development and Unknown have none. */
  function VersionOf(s: SdkNumber): Option<Version> {
    match s
    case Api1 => Some(Version(1, 0, 0, []))
    case Api2 => Some(Version(1, 1, 0, []))
    case Api3 => Some(Version(1, 5, 0, []))
    case Api4 => Some(Version(1, 6, 0, []))
    case Api5 => Some(Version(2, 0, 0, []))
    case Api6 => Some(Version(2, 0, 1, []))
    case Api7 => Some(Version(2, 1, 0, []))
    case Api8 => Some(Version(2, 2, 0, []))
    case Api9 => Some(Version(2, 3, 0, []))
    case Api10 => Some(Version(2, 3, 3, []))
    case Api11 => Some(Version(3, 0, 0, []))
    case Api12 => Some(Version(3, 1, 0, []))
    case Api13 => Some(Version(3, 2, 0, []))
    case Api14 => Some(Version(4, 0, 0, []))
    case Api15 => Some(Version(4, 0, 3, []))
    case Api16 => Some(Version(4, 1, 0, []))
    case Api17 => Some(Version(4, 2, 0, []))
    case Api18 => Some(Version(4, 3, 0, []))
    case Api19 => Some(Version(4, 4, 0, []))
    case Api20 => Some(Version(4, 4, 0, ["W"]))
    case Api21 => Some(Version(5, 0, 0, []))
    case Api22 => Some(Version(5, 1, 0, []))
    case Api23 => Some(Version(6, 0, 0, []))
    case Api24 => Some(Version(7, 0, 0, []))
    case Api25 => Some(Version(7, 1, 0, []))
    case Api26 => Some(Version(8, 0, 0, []))
    case Development | Unknown(_) => None
  }

  /** `name()`: the release name. */
  function Name(s: SdkNumber): string {
    match s
    case Api1 => "Base"
    case Api2 => "Base"
    case Api3 => "Cupcake"
    case Api4 => "Donut"
    case Api5 => "Eclair"
    case Api6 => "Eclair"
    case Api7 => "Eclair MR1"
    case Api8 => "Froyo"
    case Api9 => "Gingerbread"
    case Api10 => "Gingerbread MR1"
    case Api11 => "Honeycomb"
    case Api12 => "Honeycomb MR1"
    case Api13 => "Honeycomb MR2"
    case Api14 => "Ice Cream Sandwich"
    case Api15 => "Ice Cream Sandwich MR1"
    case Api16 => "Jelly Bean"
    case Api17 => "Jelly Bean MR1"
    case Api18 => "Jelly Bean MR2"
    case Api19 => "KitKat"
    case Api20 => "KitKat Watch"
    case Api21 => "Lollipop"
    case Api22 => "Lollipop MR1"
    case Api23 => "Marshmallow"
    case Api24 => "Nougat"
    case Api25 => "Nougat MR1"
    case Api26 => "Oreo"
    case Development => "Development"
    case Unknown(_) => "Unknown"
  }

  /**
    * `prettify_android_version`: "major.minor", then ".patch" only when the patch is not
    * zero, then the first build identifier if there is one.
    */
  function Prettify(v: Version): string {
    Text.NatToString(v.major) + "." + Text.NatToString(v.minor)
    + (if v.patch == 0 then "" else "." + Text.NatToString(v.patch))
    + (if |v.build| > 0 then v.build[0] else "")
  }

  /** A level converted to a variant and back is the same level, for every `u32`. */
  lemma {:induction false} NumberFromNumber(n: U32)
    ensures Number(FromNumber(n)) == n
    ensures FromNumber(n).Unknown? <==> !(1 <= n <= 26) && n != 10000
    ensures FromNumber(n) == Development <==> n == 10000
  {
  }

  /** Every variant except Unknown is recovered from its level; Unknown(v) is only when v has no variant of its own. */
  lemma {:induction false} FromNumberNumber(s: SdkNumber)
    ensures !s.Unknown? ==> FromNumber(Number(s)) == s
    ensures s.Unknown? ==> (FromNumber(Number(s)) == s <==> !(1 <= s.level <= 26) && s.level != 10000)
  {
    if s.Unknown? {
      NumberFromNumber(s.level);
    }
  }

  lemma {:induction false} RankOfLevel(n: U32)
    requires 1 <= n <= 26
    ensures Rank(FromNumber(n)) == n - 1
  {
  }

  /** The derived order follows the API level: lower levels first, then Development, then Unknown. */
  lemma {:induction false} OrderFollowsLevel(a: U32, b: U32)
    requires 1 <= a < b <= 26
    ensures Lt(FromNumber(a), FromNumber(b))
    ensures Lt(FromNumber(b), Development) && Lt(Development, Unknown(a))
  {
    RankOfLevel(a);
    RankOfLevel(b);
  }

  /** Exactly Development and Unknown have no release version. */
  lemma {:induction false} VersionAbsent(s: SdkNumber)
    ensures VersionOf(s).None? <==> s.Development? || s.Unknown?
    ensures VersionOf(s).Some? ==> |VersionOf(s).value.build| <= 1
  {
  }

  /** Api1/Api2 share "Base" and Api5/Api6 share "Eclair"; Development and every Unknown level have fixed names. */
  lemma NamesShared(v: U32)
    ensures Name(Api1) == Name(Api2) == "Base"
    ensures Name(Api5) == Name(Api6) == "Eclair"
    ensures Name(Development) == "Development" && Name(Unknown(v)) == "Unknown"
  {
  }

  /**
    * The printed version has one dot, or two when the patch is not zero (as long as the
    * build identifier has no dot of its own).
    */
  lemma {:induction false} PrettifyDots(v: Version)
    requires |v.build| == 0 || '.' !in v.build[0]
    ensures Text.CountChar(Prettify(v), '.') == if v.patch == 0 then 1 else 2
  {
    var ma, mi, pa := Text.NatToString(v.major), Text.NatToString(v.minor), Text.NatToString(v.patch);
    var p := if v.patch == 0 then "" else "." + pa;
    var b := if |v.build| > 0 then v.build[0] else "";
    forall d: string | Text.AllDigits(d) ensures Text.CountChar(d, '.') == 0 {
      assert '.' !in d;
    }
    Text.CountCharAppend(ma, ".", '.');
    Text.CountCharAppend(ma + ".", mi, '.');
    Text.CountCharAppend(ma + "." + mi, p, '.');
    Text.CountCharAppend(ma + "." + mi + p, b, '.');
    if v.patch != 0 {
      Text.CountCharAppend(".", pa, '.');
    }
    assert Prettify(v) == ma + "." + mi + p + b;
  }

  /** The printed versions the tests check for a patch release and for the one release with a build identifier. */
  lemma PrettifyExamples()
    ensures Prettify(VersionOf(Api6).value) == "2.0.1"
    ensures Prettify(VersionOf(Api20).value) == "4.4W"
  {
    assert Text.NatToString(0) == "0" && Text.NatToString(1) == "1" && Text.NatToString(2) == "2";
    assert Text.NatToString(4) == "4";
  }
}

