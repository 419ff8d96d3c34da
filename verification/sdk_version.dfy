/** The older grouping of Android API levels into named releases (`SDKVersion`). */
module SdkVersions {
  import opened Common
  import Text

  datatype SdkVersion =
    | Oreo | Nougat | Marshmallow | Lollipop | KitKat | JellyBean | IceCreamSandwich
    | Honeycomb | Gingerbread | Froyo | Eclair | Donut | Cupcake | Old | Unknown

  /** `From<u32>`: the release an API level belongs to; unlisted levels (0, 20, above 26) are Unknown. */
  function FromLevel(n: U32): SdkVersion {
    match n
    case 26 => Oreo
    case 25 | 24 => Nougat
    case 23 => Marshmallow
    case 22 | 21 => Lollipop
    case 19 => KitKat
    case 18 | 17 | 16 => JellyBean
    case 15 | 14 => IceCreamSandwich
    case 13 | 12 | 11 => Honeycomb
    case 10 | 9 => Gingerbread
    case 8 => Froyo
    case 7 | 6 | 5 => Eclair
    case 4 => Donut
    case 3 => Cupcake
    case 2 | 1 => Old
    case _ => Unknown
  }

  /** `From<SDKVersion> for u32`: the highest level of the release, 0 for Unknown. */
  function ToLevel(v: SdkVersion): U32 {
    match v
    case Oreo => 26
    case Nougat => 25
    case Marshmallow => 23
    case Lollipop => 22
    case KitKat => 19
    case JellyBean => 18
    case IceCreamSandwich => 15
    case Honeycomb => 13
    case Gingerbread => 10
    case Froyo => 8
    case Eclair => 7
    case Donut => 4
    case Cupcake => 3
    case Old => 2
    case Unknown => 0
  }

  /** Converting a release to its level and back gives the same release. */
  lemma {:induction false} FromToLevel(v: SdkVersion)
    ensures FromLevel(ToLevel(v)) == v
  {
    match v {
      case Oreo => case Nougat => case Marshmallow => case Lollipop => case KitKat =>
      case JellyBean => case IceCreamSandwich => case Honeycomb => case Gingerbread =>
      case Froyo => case Eclair => case Donut => case Cupcake => case Old => case Unknown =>
    }
  }

  /**
    * A level maps to a known release exactly when it is one of 1..=26 other than 20, and
    * the release's own level is the highest level that maps to it.
    */
  lemma {:induction false} LevelGroups(n: U32)
    ensures FromLevel(n) == Unknown <==> n == 0 || n == 20 || n > 26
    ensures FromLevel(n) != Unknown ==> n <= ToLevel(FromLevel(n))
    ensures FromLevel(n) != Unknown ==> forall m: U32 :: n <= m <= ToLevel(FromLevel(n)) ==> FromLevel(m) == FromLevel(n)
  {
  }

  /** The name `Display` prints: the variant name, with spaces for the two multi-word releases. */
  function Name(v: SdkVersion): string {
    match v
    case Oreo => "Oreo"
    case Nougat => "Nougat"
    case Marshmallow => "Marshmallow"
    case Lollipop => "Lollipop"
    case KitKat => "KitKat"
    case JellyBean => "Jelly Bean"
    case IceCreamSandwich => "Ice Cream Sandwich"
    case Honeycomb => "Honeycomb"
    case Gingerbread => "Gingerbread"
    case Froyo => "Froyo"
    case Eclair => "Eclair"
    case Donut => "Donut"
    case Cupcake => "Cupcake"
    case Old => "Old"
    case Unknown => "Unknown"
  }

  /** `Display` (and `Serialize`): "name (level)". */
  function Display(v: SdkVersion): (s: string)
    ensures Text.StartsWith(s, Name(v))
    ensures |s| > |Name(v)| + 3 && s[..|Name(v)| + 2] == Name(v) + " ("
    ensures s[|s| - 1] == ')'
  {
    Name(v) + " (" + Text.NatToString(ToLevel(v)) + ")"
  }

  /** The digits of the display text between " (" and the final ")". */
  function DisplayedLevel(v: SdkVersion): string {
    var s := Display(v);
    s[|Name(v)| + 2..|s| - 1]
  }

  /**
    * The digits `Display` prints between " (" and ")" read back as `u32::from(v)`, and that
    * level converts back to the release: the display text determines the release.
    */
  lemma DisplayReadsBack(v: SdkVersion)
    ensures Text.ParseUnsigned(DisplayedLevel(v), 0xFFFF_FFFF) == Some(ToLevel(v) as nat)
    ensures FromLevel(Text.ParseUnsigned(DisplayedLevel(v), 0xFFFF_FFFF).value as U32) == v
  {
    var digits := Text.NatToString(ToLevel(v));
    var s := Display(v);
    assert s == Name(v) + " (" + digits + ")";
    assert DisplayedLevel(v) == digits;
    Text.ParseUnsignedPrinted(ToLevel(v), 0xFFFF_FFFF);
    FromToLevel(v);
  }

  /** A release is shown with its highest level. */
  lemma DisplayJellyBean()
    ensures Display(JellyBean) == "Jelly Bean (18)"
  {
    assert Text.NatToString(18) == "18" by { assert Text.NatToString(1) == "1"; }
  }

  /** A level that is not the release's highest is shown as the release's highest. */
  lemma DisplayLevel24()
    ensures Display(FromLevel(24)) == "Nougat (25)"
  {
    assert Text.NatToString(25) == "25" by { assert Text.NatToString(2) == "2"; }
    assert FromLevel(24) == Nougat;
  }

  /** Level 20 belongs to no release and is shown with level 0. */
  lemma DisplayLevel20()
    ensures Display(FromLevel(20)) == "Unknown (0)"
  {
    assert FromLevel(20) == Unknown;
  }
}
