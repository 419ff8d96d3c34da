/** The older enumeration of Android API levels (`SDKNumber`), declared from newest to oldest. */
module SdkNumbersOld {
  import opened Common
  import Text

  datatype SdkNumber =
    | Api26 | Api25 | Api24 | Api23 | Api22 | Api21 | Api20 | Api19 | Api18 | Api17 | Api16 | Api15 | Api14 | Api13 | Api12 | Api11 | Api10 | Api9 | Api8 | Api7 | Api6 | Api5 | Api4 | Api3 | Api2 | Api1 | ApiUnknown

  /** The API level of a variant; 0 stands for ApiUnknown. */
  function Level(v: SdkNumber): (n: nat)
    ensures n <= 26
  {
    match v
    case Api26 => 26
    case Api25 => 25
    case Api24 => 24
    case Api23 => 23
    case Api22 => 22
    case Api21 => 21
    case Api20 => 20
    case Api19 => 19
    case Api18 => 18
    case Api17 => 17
    case Api16 => 16
    case Api15 => 15
    case Api14 => 14
    case Api13 => 13
    case Api12 => 12
    case Api11 => 11
    case Api10 => 10
    case Api9 => 9
    case Api8 => 8
    case Api7 => 7
    case Api6 => 6
    case Api5 => 5
    case Api4 => 4
    case Api3 => 3
    case Api2 => 2
    case Api1 => 1
    case ApiUnknown => 0
  }

  /** Position in the declaration, which the derived `Ord` compares. */
  function Rank(v: SdkNumber): nat {
    match v
    case Api26 => 0
    case Api25 => 1
    case Api24 => 2
    case Api23 => 3
    case Api22 => 4
    case Api21 => 5
    case Api20 => 6
    case Api19 => 7
    case Api18 => 8
    case Api17 => 9
    case Api16 => 10
    case Api15 => 11
    case Api14 => 12
    case Api13 => 13
    case Api12 => 14
    case Api11 => 15
    case Api10 => 16
    case Api9 => 17
    case Api8 => 18
    case Api7 => 19
    case Api6 => 20
    case Api5 => 21
    case Api4 => 22
    case Api3 => 23
    case Api2 => 24
    case Api1 => 25
    case ApiUnknown => 26
  }

  /** `From<u32>`: levels 1..=26 have their own variant, every other level is ApiUnknown. */
  function FromLevel(n: U32): SdkNumber {
    match n
    case 1 => Api1
    case 2 => Api2
    case 3 => Api3
    case 4 => Api4
    case 5 => Api5
    case 6 => Api6
    case 7 => Api7
    case 8 => Api8
    case 9 => Api9
    case 10 => Api10
    case 11 => Api11
    case 12 => Api12
    case 13 => Api13
    case 14 => Api14
    case 15 => Api15
    case 16 => Api16
    case 17 => Api17
    case 18 => Api18
    case 19 => Api19
    case 20 => Api20
    case 21 => Api21
    case 22 => Api22
    case 23 => Api23
    case 24 => Api24
    case 25 => Api25
    case 26 => Api26
    case _ => ApiUnknown
  }

  /** `as_str`, which `Display` and `Serialize` emit unchanged: release name and level. */
  function AsStr(v: SdkNumber): string {
    match v
    case Api26 => "Oreo (26)"
    case Api25 => "Nougat MR1 (25)"
    case Api24 => "Nougat (24)"
    case Api23 => "Marshmallow (23)"
    case Api22 => "Lollipop MR1 (22)"
    case Api21 => "Lollipop (21)"
    case Api20 => "KitKat Watch (20)"
    case Api19 => "KitKat (19)"
    case Api18 => "Jelly Bean MR2 (18)"
    case Api17 => "Jelly Bean MR1 (17)"
    case Api16 => "Jelly Bean (16)"
    case Api15 => "Ice Cream Sandwich MR1 (15)"
    case Api14 => "Ice Cream Sandwich (14)"
    case Api13 => "Honeycomb MR2 (13)"
    case Api12 => "Honeycomb MR1 (12)"
    case Api11 => "Honeycomb (11)"
    case Api10 => "Gingerbread MR1 (10)"
    case Api9 => "Gingerbread (9)"
    case Api8 => "Froyo (8)"
    case Api7 => "Eclair MR1 (7)"
    case Api6 => "Eclair 0.1 (6)"
    case Api5 => "Eclair (5)"
    case Api4 => "Donut (4)"
    case Api3 => "Cupcake (3)"
    case Api2 => "Base1.1 (2)"
    case Api1 => "Base (1)"
    case ApiUnknown => "Unknown (?)"
  }

  /** Level and variant determine each other on 1..=26; everything else is ApiUnknown. */
  lemma {:induction false} LevelRoundTrip(n: U32, v: SdkNumber)
    ensures 1 <= n <= 26 ==> Level(FromLevel(n)) == n
    ensures FromLevel(n) == ApiUnknown <==> n == 0 || n > 26
    ensures FromLevel(Level(v)) == v
  {
    match v {
      case Api26 => case Api25 => case Api24 => case Api23 => case Api22 => case Api21 => case Api20 => case Api19 => case Api18 => case Api17 => case Api16 => case Api15 => case Api14 => case Api13 => case Api12 => case Api11 => case Api10 => case Api9 => case Api8 => case Api7 => case Api6 => case Api5 => case Api4 => case Api3 => case Api2 => case Api1 => case ApiUnknown =>
    }
  }

  /** The derived order lists the newest level first: a higher level is a smaller variant, and ApiUnknown is the largest. */
  lemma {:induction false} OrderIsReverseLevel(a: U32, b: U32, v: SdkNumber)
    requires 1 <= a < b <= 26
    ensures Rank(FromLevel(b)) < Rank(FromLevel(a))
    ensures Rank(v) <= Rank(ApiUnknown)
    ensures v != ApiUnknown ==> Rank(v) == 26 - Level(v)
  {
    match v {
      case Api26 => case Api25 => case Api24 => case Api23 => case Api22 => case Api21 => case Api20 => case Api19 => case Api18 => case Api17 => case Api16 => case Api15 => case Api14 => case Api13 => case Api12 => case Api11 => case Api10 => case Api9 => case Api8 => case Api7 => case Api6 => case Api5 => case Api4 => case Api3 => case Api2 => case Api1 => case ApiUnknown =>
    }
  }

  /** The text of a known level ends with that level in parentheses. */
  lemma {:induction false} AsStrEndsWithLevel(v: SdkNumber)
    ensures v == ApiUnknown ==> AsStr(v) == "Unknown (?)"
    ensures v != ApiUnknown ==> Text.EndsWith(AsStr(v), " (" + Text.NatToString(Level(v)) + ")")
  {
    if Level(v) == 0 { }
    else if Level(v) <= 2 { AsStrEndsWithLevel1To2(v); }
    else if Level(v) <= 4 { AsStrEndsWithLevel3To4(v); }
    else if Level(v) <= 6 { AsStrEndsWithLevel5To6(v); }
    else if Level(v) <= 8 { AsStrEndsWithLevel7To8(v); }
    else if Level(v) <= 10 { AsStrEndsWithLevel9To10(v); }
    else if Level(v) <= 12 { AsStrEndsWithLevel11To12(v); }
    else if Level(v) <= 14 { AsStrEndsWithLevel13To14(v); }
    else if Level(v) <= 16 { AsStrEndsWithLevel15To16(v); }
    else if Level(v) <= 18 { AsStrEndsWithLevel17To18(v); }
    else if Level(v) <= 20 { AsStrEndsWithLevel19To20(v); }
    else if Level(v) <= 22 { AsStrEndsWithLevel21To22(v); }
    else if Level(v) <= 24 { AsStrEndsWithLevel23To24(v); }
    else if Level(v) <= 26 { AsStrEndsWithLevel25To26(v); }
  }

  /** The decimal form of a level, one or two digits. */
  lemma LevelDigits(n: nat)
    requires 1 <= n < 100
    ensures Text.NatToString(n) == if n < 10 then [Text.DigitChar(n)] else [Text.DigitChar(n / 10), Text.DigitChar(n % 10)]
  {
  }

  /** A text made of a name and the level's digits in parentheses ends with those. */
  lemma NamedLevel(v: SdkNumber, name: string, digits: string)
    requires AsStr(v) == name + " (" + digits + ")" && Text.NatToString(Level(v)) == digits
    ensures Text.EndsWith(AsStr(v), " (" + Text.NatToString(Level(v)) + ")")
  {
    Text.EndsWithConcat(name, " (" + digits + ")");
    assert name + " (" + digits + ")" == name + (" (" + digits + ")");
  }

  lemma {:induction false} AsStrEndsWithLevel1To2(v: SdkNumber)
    requires 1 <= Level(v) <= 2
    ensures Text.EndsWith(AsStr(v), " (" + Text.NatToString(Level(v)) + ")")
  {
    LevelDigits(Level(v));
    if v == Api2 {
      NamedLevel(v, "Base1.1", "2");
    } else {
      assert v == Api1;
      NamedLevel(v, "Base", "1");
    }
  }

  lemma {:induction false} AsStrEndsWithLevel3To4(v: SdkNumber)
    requires 3 <= Level(v) <= 4
    ensures Text.EndsWith(AsStr(v), " (" + Text.NatToString(Level(v)) + ")")
  {
    LevelDigits(Level(v));
    if v == Api4 {
      NamedLevel(v, "Donut", "4");
    } else {
      assert v == Api3;
      NamedLevel(v, "Cupcake", "3");
    }
  }

  lemma {:induction false} AsStrEndsWithLevel5To6(v: SdkNumber)
    requires 5 <= Level(v) <= 6
    ensures Text.EndsWith(AsStr(v), " (" + Text.NatToString(Level(v)) + ")")
  {
    LevelDigits(Level(v));
    if v == Api6 {
      NamedLevel(v, "Eclair 0.1", "6");
    } else {
      assert v == Api5;
      NamedLevel(v, "Eclair", "5");
    }
  }

  lemma {:induction false} AsStrEndsWithLevel7To8(v: SdkNumber)
    requires 7 <= Level(v) <= 8
    ensures Text.EndsWith(AsStr(v), " (" + Text.NatToString(Level(v)) + ")")
  {
    LevelDigits(Level(v));
    if v == Api8 {
      NamedLevel(v, "Froyo", "8");
    } else {
      assert v == Api7;
      NamedLevel(v, "Eclair MR1", "7");
    }
  }

  lemma {:induction false} AsStrEndsWithLevel9To10(v: SdkNumber)
    requires 9 <= Level(v) <= 10
    ensures Text.EndsWith(AsStr(v), " (" + Text.NatToString(Level(v)) + ")")
  {
    LevelDigits(Level(v));
    if v == Api10 {
      NamedLevel(v, "Gingerbread MR1", "10");
    } else {
      assert v == Api9;
      NamedLevel(v, "Gingerbread", "9");
    }
  }

  lemma {:induction false} AsStrEndsWithLevel11To12(v: SdkNumber)
    requires 11 <= Level(v) <= 12
    ensures Text.EndsWith(AsStr(v), " (" + Text.NatToString(Level(v)) + ")")
  {
    LevelDigits(Level(v));
    if v == Api12 {
      NamedLevel(v, "Honeycomb MR1", "12");
    } else {
      assert v == Api11;
      NamedLevel(v, "Honeycomb", "11");
    }
  }

  lemma {:induction false} AsStrEndsWithLevel13To14(v: SdkNumber)
    requires 13 <= Level(v) <= 14
    ensures Text.EndsWith(AsStr(v), " (" + Text.NatToString(Level(v)) + ")")
  {
    LevelDigits(Level(v));
    if v == Api14 {
      NamedLevel(v, "Ice Cream Sandwich", "14");
    } else {
      assert v == Api13;
      NamedLevel(v, "Honeycomb MR2", "13");
    }
  }

  lemma {:induction false} AsStrEndsWithLevel15To16(v: SdkNumber)
    requires 15 <= Level(v) <= 16
    ensures Text.EndsWith(AsStr(v), " (" + Text.NatToString(Level(v)) + ")")
  {
    LevelDigits(Level(v));
    if v == Api16 {
      NamedLevel(v, "Jelly Bean", "16");
    } else {
      assert v == Api15;
      NamedLevel(v, "Ice Cream Sandwich MR1", "15");
    }
  }

  lemma {:induction false} AsStrEndsWithLevel17To18(v: SdkNumber)
    requires 17 <= Level(v) <= 18
    ensures Text.EndsWith(AsStr(v), " (" + Text.NatToString(Level(v)) + ")")
  {
    LevelDigits(Level(v));
    if v == Api18 {
      NamedLevel(v, "Jelly Bean MR2", "18");
    } else {
      assert v == Api17;
      NamedLevel(v, "Jelly Bean MR1", "17");
    }
  }

  lemma {:induction false} AsStrEndsWithLevel19To20(v: SdkNumber)
    requires 19 <= Level(v) <= 20
    ensures Text.EndsWith(AsStr(v), " (" + Text.NatToString(Level(v)) + ")")
  {
    LevelDigits(Level(v));
    if v == Api20 {
      NamedLevel(v, "KitKat Watch", "20");
    } else {
      assert v == Api19;
      NamedLevel(v, "KitKat", "19");
    }
  }

  lemma {:induction false} AsStrEndsWithLevel21To22(v: SdkNumber)
    requires 21 <= Level(v) <= 22
    ensures Text.EndsWith(AsStr(v), " (" + Text.NatToString(Level(v)) + ")")
  {
    LevelDigits(Level(v));
    if v == Api22 {
      NamedLevel(v, "Lollipop MR1", "22");
    } else {
      assert v == Api21;
      NamedLevel(v, "Lollipop", "21");
    }
  }

  lemma {:induction false} AsStrEndsWithLevel23To24(v: SdkNumber)
    requires 23 <= Level(v) <= 24
    ensures Text.EndsWith(AsStr(v), " (" + Text.NatToString(Level(v)) + ")")
  {
    LevelDigits(Level(v));
    if v == Api24 {
      NamedLevel(v, "Nougat", "24");
    } else {
      assert v == Api23;
      NamedLevel(v, "Marshmallow", "23");
    }
  }

  lemma {:induction false} AsStrEndsWithLevel25To26(v: SdkNumber)
    requires 25 <= Level(v) <= 26
    ensures Text.EndsWith(AsStr(v), " (" + Text.NatToString(Level(v)) + ")")
  {
    LevelDigits(Level(v));
    if v == Api26 {
      NamedLevel(v, "Oreo", "26");
    } else {
      assert v == Api25;
      NamedLevel(v, "Nougat MR1", "25");
    }
  }
}
