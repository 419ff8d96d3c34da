/**
  * What the manifest analysis reads from `AndroidManifest.xml`, stated on values: the
  * install location, `get_line`, attribute keys by their local name, the attribute
  * handlers of the `manifest`, `uses-sdk`, `application`, `uses-permission` and
  * component elements, the walk over the parser's events, and the findings of `analysis`.
  *
  * The XML parser is not modelled: a document is the sequence of events it yields. An
  * attribute carries its key, its value read one character per byte, and whether the
  * value's bytes are valid UTF-8.
  */
module Manifests {
  import opened Common
  import Text
  import opened Criticalities
  import opened Vulnerabilities
  import Permissions
  import Snippets
  import Configs

  datatype InstallLocation = InternalOnly | Auto | PreferExternal

  /** The attribute text that names each install location. */
  function LocationName(l: InstallLocation): string {
    match l
    case InternalOnly => "internalOnly"
    case Auto => "auto"
    case PreferExternal => "preferExternal"
  }

  /** Why an attribute handler gave up on an element. */
  datatype AttributeError =
    | MalformedAttribute
    | InvalidUtf8
    | InvalidNumber(text: string)
    | InvalidInstallLocation(text: string)

  /**
    * `InstallLocation::try_from`: exactly the three names, with their case; anything else
    * is an error that quotes the value, or reports invalid UTF-8 when it cannot.
    */
  function InstallLocationTryFrom(value: string, utf8: bool): (r: Result<InstallLocation, AttributeError>)
    ensures r.Ok? <==> value == "internalOnly" || value == "auto" || value == "preferExternal"
    ensures r.Ok? ==> LocationName(r.value) == value
    ensures r.Err? ==> r.error == (if utf8 then InvalidInstallLocation(value) else InvalidUtf8)
  {
    if value == "internalOnly" then Ok(InternalOnly)
    else if value == "auto" then Ok(Auto)
    else if value == "preferExternal" then Ok(PreferExternal)
    else if utf8 then Err(InvalidInstallLocation(value))
    else Err(InvalidUtf8)
  }

  /** `InstallLocation::from_str`: `try_from` on the bytes of the text. */
  function InstallLocationFromStr(s: string): (r: Result<InstallLocation, AttributeError>)
    ensures forall l :: r == Ok(l) <==> LocationName(l) == s
  {
    InstallLocationTryFrom(s, true)
  }

  /** Each location's name parses back to it, and the unit test's cases hold. */
  lemma InstallLocationRoundTrip(l: InstallLocation)
    ensures InstallLocationFromStr(LocationName(l)) == Ok(l)
    ensures InstallLocationFromStr("internalOnly") == Ok(InternalOnly)
    ensures InstallLocationFromStr("auto") == Ok(Auto)
    ensures InstallLocationFromStr("preferExternal") == Ok(PreferExternal)
    ensures InstallLocationFromStr("Razican") == Err(InvalidInstallLocation("Razican"))
  {
  }

  /**
    * The key's last segment when split at `':'`, as the handlers match it: the whole key
    * when it has no `':'`, and what follows the last `':'` otherwise.
    */
  function LocalName(key: string): (r: string)
    ensures ':' !in r
    ensures |r| <= |key| && key[|key| - |r|..] == r
    ensures |r| < |key| ==> key[|key| - |r| - 1] == ':'
    ensures ':' !in key ==> r == key
    decreases |key|
  {
    if key == [] || key[|key| - 1] == ':' then []
    else
      var init := key[..|key| - 1];
      var r := LocalName(init) + [key[|key| - 1]];
      assert key[|key| - |r|..] == init[|init| - (|r| - 1)..] + [key[|key| - 1]];
      r
  }

  /** A prefixed key has the local name of its part after the prefix. */
  lemma {:induction false} LocalNamePrefixed(prefix: string, name: string)
    requires ':' !in name
    ensures LocalName(prefix + ":" + name) == name
    decreases |name|
  {
    var key := prefix + ":" + name;
    if name == [] {
      assert key[|key| - 1] == ':';
    } else {
      assert key[..|key| - 1] == prefix + ":" + name[..|name| - 1];
      LocalNamePrefixed(prefix, name[..|name| - 1]);
      assert name[..|name| - 1] + [name[|name| - 1]] == name;
    }
  }

  /** The attribute names the handlers act on; every other name is `OtherKey`. */
  datatype Key =
    | PackageKey | VersionCodeKey | VersionNameKey | InstallLocationKey
    | MinSdkVersionKey | TargetSdkVersionKey
    | DebuggableKey | AllowBackupKey | DescriptionKey | HasCodeKey | LargeHeapKey | LabelKey
    | NameKey | ExportedKey
    | OtherKey

  /** The name each key stands for. */
  function KeyName(k: Key): string
    requires k != OtherKey
  {
    match k
    case PackageKey => "package"
    case VersionCodeKey => "versionCode"
    case VersionNameKey => "versionName"
    case InstallLocationKey => "installLocation"
    case MinSdkVersionKey => "minSdkVersion"
    case TargetSdkVersionKey => "targetSdkVersion"
    case DebuggableKey => "debuggable"
    case AllowBackupKey => "allowBackup"
    case DescriptionKey => "description"
    case HasCodeKey => "hasCode"
    case LargeHeapKey => "largeHeap"
    case LabelKey => "label"
    case NameKey => "name"
    case ExportedKey => "exported"
  }

  /** The named keys, in the order the handlers test them. */
  const NamedKeys: seq<Key> := [
    PackageKey, VersionCodeKey, VersionNameKey, InstallLocationKey,
    MinSdkVersionKey, TargetSdkVersionKey,
    DebuggableKey, AllowBackupKey, DescriptionKey, HasCodeKey, LargeHeapKey, LabelKey,
    NameKey, ExportedKey]

  /** The first key of `ks` named `n`, or `OtherKey`. */
  function FindKey(ks: seq<Key>, n: string): (k: Key)
    requires OtherKey !in ks
    ensures k != OtherKey ==> k in ks && KeyName(k) == n
  {
    if ks == [] then OtherKey
    else if KeyName(ks[0]) == n then ks[0]
    else FindKey(ks[1..], n)
  }

  /** The key a local name is matched as. */
  function KeyOf(n: string): (k: Key)
    ensures k != OtherKey ==> KeyName(k) == n
  {
    FindKey(NamedKeys, n)
  }

  /** No two keys share a name. */
  lemma KeyNameInjective(a: Key, b: Key)
    requires a != OtherKey && b != OtherKey
    ensures KeyName(a) == KeyName(b) ==> a == b
  {
  }

  /** Searching a list holding `k` for its name finds `k`. */
  lemma {:induction false} FindKeyName(ks: seq<Key>, k: Key)
    requires OtherKey !in ks && k in ks
    ensures FindKey(ks, KeyName(k)) == k
  {
    if ks[0] != k {
      KeyNameInjective(ks[0], k);
      FindKeyName(ks[1..], k);
    }
  }

  /** Every key's name is matched as that key, and names no other. */
  lemma KeyOfName(k: Key)
    requires k != OtherKey
    ensures KeyOf(KeyName(k)) == k
    ensures ':' !in KeyName(k)
  {
    KeyListed(k);
    FindKeyName(NamedKeys, k);
    KeyNameColonFree(k);
  }

  /** Every named key is in the list the search walks. */
  lemma KeyListed(k: Key)
    requires k != OtherKey
    ensures k in NamedKeys && OtherKey !in NamedKeys
  {
  }

  /** No key's name holds a namespace separator. */
  lemma KeyNameColonFree(k: Key)
    requires k != OtherKey
    ensures ':' !in KeyName(k)
  {
  }

  /** The key of an attribute: its local name, classified. */
  function AttributeKey(key: string): Key {
    KeyOf(LocalName(key))
  }

  /** `prefix:name` is matched as the key `name` stands for. */
  lemma PrefixedKey(prefix: string, k: Key)
    requires k != OtherKey
    ensures AttributeKey(prefix + ":" + KeyName(k)) == k
  {
    KeyOfName(k);
    LocalNamePrefixed(prefix, KeyName(k));
  }

  /** The first line at or after `from` that contains `needle`. */
  function FirstLineWith(ls: seq<string>, needle: string, from: nat): (r: Option<nat>)
    requires from <= |ls|
    ensures r.Some? ==> from <= r.value < |ls| && Text.Contains(ls[r.value], needle)
    ensures r.Some? ==> forall j :: from <= j < r.value ==> !Text.Contains(ls[j], needle)
    ensures r.None? <==> forall j :: from <= j < |ls| ==> !Text.Contains(ls[j], needle)
    decreases |ls| - from
  {
    if from == |ls| then None
    else if Text.Contains(ls[from], needle) then Some(from)
    else FirstLineWith(ls, needle, from + 1)
  }

  /**
    * `get_line`: the 0-based number of the first line of `code` containing `needle`, and
    * `None` exactly when no line contains it.
    */
  function GetLine(code: string, needle: string): (r: Option<nat>)
    ensures r.Some? ==> r.value < |Text.Lines(code)| && Text.Contains(Text.Lines(code)[r.value], needle)
    ensures r.Some? ==> forall j :: 0 <= j < r.value ==> !Text.Contains(Text.Lines(code)[j], needle)
    ensures r.None? <==> forall j :: 0 <= j < |Text.Lines(code)| ==> !Text.Contains(Text.Lines(code)[j], needle)
  {
    FirstLineWith(Text.Lines(code), needle, 0)
  }

  /** `get_code(code, l, l)` for the line `get_line` found, if it found one. */
  function CodeAt(code: string, line: Option<nat>): Option<string> {
    match line
    case None => None
    case Some(l) => Some(Snippets.Snippet(Text.Lines(code), |Text.Lines(code)|, l, l))
  }

  /** A finding in the manifest, located at the first line containing `needle`. */
  function ManifestFinding(c: Criticality, name: string, description: string, code: string, needle: string): (v: Vulnerability)
    ensures v.criticality == c && v.name == name && v.description == description
    ensures v.file == Some("AndroidManifest.xml") && v.startLine == v.endLine == GetLine(code, needle)
  {
    var line := GetLine(code, needle);
    Vulnerability(c, name, description, Some("AndroidManifest.xml"), line, line, CodeAt(code, line))
  }

  /** One attribute as the parser yields it: an error, or a key with its raw value. */
  datatype Attribute = Malformed | Attr(key: string, value: string, utf8: bool)

  /** The fields of `Manifest` the attribute handlers fill in. */
  datatype ManifestData = ManifestData(
    package: string,
    appLabel: string,
    description: string,
    allowsBackup: bool,
    hasCode: bool,
    largeHeap: bool,
    installLocation: InstallLocation,
    debug: bool,
    minSdk: U32,
    targetSdk: Option<U32>,
    versionNumber: U32,
    versionStr: string)

  /** `Manifest::default()`: empty texts, flags down, internal-only, SDK 0, no target. */
  const DefaultData := ManifestData("", "", "", false, false, false, InternalOnly, false, 0, None, 0, "")

  /** The four flags only ever go up, from `a` to `b`. */
  predicate FlagsRise(a: ManifestData, b: ManifestData) {
    (a.debug ==> b.debug) && (a.allowsBackup ==> b.allowsBackup)
    && (a.hasCode ==> b.hasCode) && (a.largeHeap ==> b.largeHeap)
  }

  /** A value read as a flag: invalid UTF-8 is an error, and only `"true"` raises it. */
  function FlagValue(value: string, utf8: bool): (r: Result<bool, AttributeError>)
    ensures r.Err? <==> !utf8
    ensures r == Ok(true) <==> utf8 && value == "true"
  {
    if !utf8 then Err(InvalidUtf8) else Ok(Text.ParseBool(value) == Some(true))
  }

  /** A value read as a `u32`: invalid UTF-8 or a malformed number is an error. */
  function NumberValue(value: string, utf8: bool): (r: Result<U32, AttributeError>)
    ensures r.Ok? ==> utf8 && Text.ParseU32(value) == Some(r.value)
    ensures r.Err? ==> r.error == (if utf8 then InvalidNumber(value) else InvalidUtf8)
  {
    if !utf8 then Err(InvalidUtf8)
    else match Text.ParseU32(value)
      case Some(n) => Ok(n)
      case None => Err(InvalidNumber(value))
  }

  /** A value read as text: invalid UTF-8 is an error. */
  function TextValue(value: string, utf8: bool): (r: Result<string, AttributeError>)
    ensures r.Ok? <==> utf8
    ensures r.Ok? ==> r.value == value
  {
    if utf8 then Ok(value) else Err(InvalidUtf8)
  }

  /** One attribute of `<manifest>`: package, version code and name, install location. */
  function ManifestAttribute(d: ManifestData, k: Key, value: string, utf8: bool): (r: Result<ManifestData, AttributeError>)
    ensures r.Ok? ==> r.value.(package := d.package, versionNumber := d.versionNumber,
      versionStr := d.versionStr, installLocation := d.installLocation) == d
  {
      match k
      case PackageKey =>
        (match TextValue(value, utf8)
        case Ok(s) => Ok(d.(package := s))
        case Err(e) => Err(e))
      case VersionCodeKey =>
        (match NumberValue(value, utf8)
        case Ok(v) => Ok(d.(versionNumber := v))
        case Err(e) => Err(e))
      case VersionNameKey =>
        (match TextValue(value, utf8)
        case Ok(s) => Ok(d.(versionStr := s))
        case Err(e) => Err(e))
      case InstallLocationKey =>
        (match InstallLocationTryFrom(value, utf8)
        case Ok(l) => Ok(d.(installLocation := l))
        case Err(e) => Err(e))
      case _ => Ok(d)
  }

  /** One attribute of `<uses-sdk>`: the minimum and target SDK levels. */
  function SdkAttribute(d: ManifestData, k: Key, value: string, utf8: bool): (r: Result<ManifestData, AttributeError>)
    ensures r.Ok? ==> r.value.(minSdk := d.minSdk, targetSdk := d.targetSdk) == d
    ensures r.Ok? && r.value.targetSdk != d.targetSdk ==> r.value.targetSdk.Some?
  {
      match k
      case MinSdkVersionKey =>
        (match NumberValue(value, utf8)
        case Ok(v) => Ok(d.(minSdk := v))
        case Err(e) => Err(e))
      case TargetSdkVersionKey =>
        (match NumberValue(value, utf8)
        case Ok(v) => Ok(d.(targetSdk := Some(v)))
        case Err(e) => Err(e))
      case _ => Ok(d)
  }

  /**
    * The label after a `label` attribute: `@string/<name>` is looked up in `strings`, the
    * application's string resources, and kept when the lookup fails; any other value is
    * the label itself unless it is not UTF-8.
    */
  function LabelAfter(current: string, value: string, utf8: bool, strings: map<string, string>): (r: string)
    ensures Text.StartsWith(value, "@string/") ==> r == (if value[8..] in strings then strings[value[8..]] else current)
    ensures !Text.StartsWith(value, "@string/") ==> r == (if utf8 then value else current)
  {
    if Text.StartsWith(value, "@string/") then
      if value[8..] in strings then strings[value[8..]] else current
    else if utf8 then value
    else current
  }

  /**
    * One attribute of `<application>`: the four flags, the description and the label. A
    * label `@string/<name>` is looked up in `strings`, the application's string
    * resources; a failed lookup or a label that is not UTF-8 is skipped.
    */
  function ApplicationAttribute(d: ManifestData, k: Key, value: string, utf8: bool, strings: map<string, string>): (r: Result<ManifestData, AttributeError>)
    ensures r.Ok? ==> FlagsRise(d, r.value)
    ensures r.Ok? ==> r.value.(debug := d.debug, allowsBackup := d.allowsBackup, hasCode := d.hasCode,
      largeHeap := d.largeHeap, description := d.description, appLabel := d.appLabel) == d
  {
      match k
      case DebuggableKey =>
        (match FlagValue(value, utf8)
        case Ok(on) => Ok(if on then d.(debug := true) else d)
        case Err(e) => Err(e))
      case AllowBackupKey =>
        (match FlagValue(value, utf8)
        case Ok(on) => Ok(if on then d.(allowsBackup := true) else d)
        case Err(e) => Err(e))
      case DescriptionKey =>
        (match TextValue(value, utf8)
        case Ok(s) => Ok(d.(description := s))
        case Err(e) => Err(e))
      case HasCodeKey =>
        (match FlagValue(value, utf8)
        case Ok(on) => Ok(if on then d.(hasCode := true) else d)
        case Err(e) => Err(e))
      case LargeHeapKey =>
        (match FlagValue(value, utf8)
        case Ok(on) => Ok(if on then d.(largeHeap := true) else d)
        case Err(e) => Err(e))
      case LabelKey => Ok(d.(appLabel := LabelAfter(d.appLabel, value, utf8, strings)))
      case _ => Ok(d)
  }

  /** Which handler an element's attributes go to. */
  datatype Handler = ManifestElement | SdkElement | ApplicationElement(strings: map<string, string>)

  /** One attribute, handed to the element's handler under its key; a malformed one is an error. */
  function HandleAttribute(h: Handler, d: ManifestData, a: Attribute): Result<ManifestData, AttributeError> {
    match a
    case Malformed => Err(MalformedAttribute)
    case Attr(key, value, utf8) => HandleKeyed(h, d, AttributeKey(key), value, utf8)
  }

  /** An attribute, once its key is known, handed to the element's handler. */
  function HandleKeyed(h: Handler, d: ManifestData, k: Key, value: string, utf8: bool): Result<ManifestData, AttributeError> {
    match h
    case ManifestElement => ManifestAttribute(d, k, value, utf8)
    case SdkElement => SdkAttribute(d, k, value, utf8)
    case ApplicationElement(strings) => ApplicationAttribute(d, k, value, utf8, strings)
  }

  /** A well-formed attribute goes to its element's handler under its key. */
  lemma AttrHandled(h: Handler, d: ManifestData, key: string, value: string, utf8: bool)
    ensures HandleAttribute(h, d, Attr(key, value, utf8)) == HandleKeyed(h, d, AttributeKey(key), value, utf8)
  {
  }

  /** A well-formed attribute of `<manifest>` goes to `ManifestAttribute` under its key. */
  lemma ManifestHandled(d: ManifestData, key: string, value: string, utf8: bool)
    ensures HandleAttribute(ManifestElement, d, Attr(key, value, utf8)) == ManifestAttribute(d, AttributeKey(key), value, utf8)
  {
    AttrHandled(ManifestElement, d, key, value, utf8);
    ManifestKeyedHandled(d, AttributeKey(key), value, utf8);
  }

  lemma ManifestKeyedHandled(d: ManifestData, k: Key, value: string, utf8: bool)
    ensures HandleKeyed(ManifestElement, d, k, value, utf8) == ManifestAttribute(d, k, value, utf8)
  {
  }

  /** A well-formed attribute of `<uses-sdk>` goes to `SdkAttribute` under its key. */
  lemma SdkHandled(d: ManifestData, key: string, value: string, utf8: bool)
    ensures HandleAttribute(SdkElement, d, Attr(key, value, utf8)) == SdkAttribute(d, AttributeKey(key), value, utf8)
  {
    AttrHandled(SdkElement, d, key, value, utf8);
    SdkKeyedHandled(d, AttributeKey(key), value, utf8);
  }

  lemma SdkKeyedHandled(d: ManifestData, k: Key, value: string, utf8: bool)
    ensures HandleKeyed(SdkElement, d, k, value, utf8) == SdkAttribute(d, k, value, utf8)
  {
  }

  /** A well-formed attribute of `<application>` goes to `ApplicationAttribute` under its key. */
  lemma ApplicationHandled(d: ManifestData, key: string, value: string, utf8: bool, strings: map<string, string>)
    ensures HandleAttribute(ApplicationElement(strings), d, Attr(key, value, utf8))
      == ApplicationAttribute(d, AttributeKey(key), value, utf8, strings)
  {
    AttrHandled(ApplicationElement(strings), d, key, value, utf8);
    ApplicationKeyedHandled(d, AttributeKey(key), value, utf8, strings);
  }

  lemma ApplicationKeyedHandled(d: ManifestData, k: Key, value: string, utf8: bool, strings: map<string, string>)
    ensures HandleKeyed(ApplicationElement(strings), d, k, value, utf8) == ApplicationAttribute(d, k, value, utf8, strings)
  {
  }

  /**
    * The handler's loop over an element's attributes: each attribute in order, until the
    * first error, which is returned with the fields as they were before it.
    */
  function AttributesAfter(h: Handler, d: ManifestData, attrs: seq<Attribute>): (ManifestData, Option<AttributeError>)
    decreases |attrs|
  {
    if attrs == [] then (d, None)
    else
      var (before, failed) := AttributesAfter(h, d, attrs[..|attrs| - 1]);
      if failed.Some? then (before, failed)
      else match HandleAttribute(h, before, attrs[|attrs| - 1])
        case Ok(after) => (after, None)
        case Err(e) => (before, Some(e))
  }

  /** An error ends the element: the attributes after it change nothing. */
  lemma {:induction false} AttributesStopAtError(h: Handler, d: ManifestData, attrs: seq<Attribute>, rest: seq<Attribute>)
    requires AttributesAfter(h, d, attrs).1.Some?
    ensures AttributesAfter(h, d, attrs + rest) == AttributesAfter(h, d, attrs)
    decreases |rest|
  {
    if rest != [] {
      assert (attrs + rest)[..|attrs + rest| - 1] == attrs + rest[..|rest| - 1];
      AttributesStopAtError(h, d, attrs, rest[..|rest| - 1]);
    } else {
      assert attrs + rest == attrs;
    }
  }

  /** Where the loop fails, it has its result. */
  lemma ErrorAt(h: Handler, d: ManifestData, attrs: seq<Attribute>, n: nat)
    requires n <= |attrs| && AttributesAfter(h, d, attrs[..n]).1.Some?
    ensures AttributesAfter(h, d, attrs) == AttributesAfter(h, d, attrs[..n])
  {
    AttributesStopAtError(h, d, attrs[..n], attrs[n..]);
    SplitAt(attrs, n);
  }

  /** The flags only go up, whatever the element and its attributes. */
  lemma {:induction false} AttributesRaiseFlagsOnly(h: Handler, d: ManifestData, attrs: seq<Attribute>)
    ensures FlagsRise(d, AttributesAfter(h, d, attrs).0)
    ensures !h.ApplicationElement? ==>
      AttributesAfter(h, d, attrs).0.(package := d.package, versionNumber := d.versionNumber,
        versionStr := d.versionStr, installLocation := d.installLocation, minSdk := d.minSdk,
        targetSdk := d.targetSdk) == d
    decreases |attrs|
  {
    if attrs != [] {
      AttributesRaiseFlagsOnly(h, d, attrs[..|attrs| - 1]);
    }
  }

  /** Handlers look at the key's local name only: `android:x` is handled as `x`. */
  lemma HandlersUseLocalName(h: Handler, d: ManifestData, key: string, value: string, utf8: bool)
    ensures HandleAttribute(h, d, Attr(key, value, utf8)) == HandleAttribute(h, d, Attr(LocalName(key), value, utf8))
  {
    var n := LocalName(key);
    var k := AttributeKey(key);
    assert LocalName(n) == n;
    assert AttributeKey(n) == k;
    assert HandleAttribute(h, d, Attr(key, value, utf8)) == HandleKeyed(h, d, k, value, utf8);
    assert HandleAttribute(h, d, Attr(n, value, utf8)) == HandleKeyed(h, d, k, value, utf8);
  }

  /** The four flags of `<application>`. */
  predicate IsFlagKey(k: Key) {
    k == DebuggableKey || k == AllowBackupKey || k == HasCodeKey || k == LargeHeapKey
  }

  /**
    * A flag of `<application>` goes up only for the value `"true"`, and then only that
    * flag; any other valid value, `"false"` or not a boolean at all, leaves the fields as
    * they are, and invalid UTF-8 is an error.
    */
  lemma ApplicationFlagNeedsTrue(d: ManifestData, prefix: string, k: Key, value: string, strings: map<string, string>)
    requires IsFlagKey(k)
    ensures var r := HandleAttribute(ApplicationElement(strings), d, Attr(prefix + ":" + KeyName(k), value, true));
      r.Ok? && (value != "true" ==> r.value == d)
    ensures var r := HandleAttribute(ApplicationElement(strings), d, Attr(prefix + ":" + KeyName(k), value, true));
      value == "true" ==>
        r.value.debug == (d.debug || k == DebuggableKey)
        && r.value.largeHeap == (d.largeHeap || k == LargeHeapKey)
        && r.value.allowsBackup == (d.allowsBackup || k == AllowBackupKey)
        && r.value.hasCode == (d.hasCode || k == HasCodeKey)
    ensures HandleAttribute(ApplicationElement(strings), d, Attr(prefix + ":" + KeyName(k), value, false)) == Err(InvalidUtf8)
  {
    var key := prefix + ":" + KeyName(k);
    PrefixedKey(prefix, k);
    ApplicationHandled(d, key, value, true, strings);
    ApplicationHandled(d, key, value, false, strings);
    FlagValueNeedsTrue(d, k, value, strings);
  }

  /** `ApplicationFlagNeedsTrue`, stated on the handler for a flag key. */
  lemma FlagValueNeedsTrue(d: ManifestData, k: Key, value: string, strings: map<string, string>)
    requires IsFlagKey(k)
    ensures var r := ApplicationAttribute(d, k, value, true, strings);
      r.Ok? && (value != "true" ==> r.value == d)
    ensures var r := ApplicationAttribute(d, k, value, true, strings);
      value == "true" ==>
        r.value.debug == (d.debug || k == DebuggableKey)
        && r.value.largeHeap == (d.largeHeap || k == LargeHeapKey)
        && r.value.allowsBackup == (d.allowsBackup || k == AllowBackupKey)
        && r.value.hasCode == (d.hasCode || k == HasCodeKey)
    ensures ApplicationAttribute(d, k, value, false, strings) == Err(InvalidUtf8)
  {
  }

  /** A printed SDK level given as `minSdkVersion` or `targetSdkVersion` is read back. */
  lemma SdkLevelPrinted(d: ManifestData, prefix: string, n: U32)
    ensures HandleAttribute(SdkElement, d, Attr(prefix + ":" + KeyName(TargetSdkVersionKey), Text.NatToString(n), true))
      == Ok(d.(targetSdk := Some(n)))
    ensures HandleAttribute(SdkElement, d, Attr(prefix + ":" + KeyName(MinSdkVersionKey), Text.NatToString(n), true))
      == Ok(d.(minSdk := n))
  {
    var v := Text.NatToString(n);
    PrefixedKey(prefix, TargetSdkVersionKey);
    PrefixedKey(prefix, MinSdkVersionKey);
    SdkHandled(d, prefix + ":" + KeyName(TargetSdkVersionKey), v, true);
    SdkHandled(d, prefix + ":" + KeyName(MinSdkVersionKey), v, true);
    Text.ParseUnsignedPrinted(n, Text.U32Max);
    assert NumberValue(v, true) == Ok(n);
  }

  /** What `check_exported_attributes` gathers: the last valid `exported` and `name` values. */
  datatype ExportedScan = ExportedScan(exported: Option<bool>, name: string)

  function ExportedAttribute(s: ExportedScan, a: Attribute): Result<ExportedScan, AttributeError> {
    match a
    case Malformed => Err(MalformedAttribute)
    case Attr(key, value, utf8) => Ok(ExportedKeyed(s, AttributeKey(key), value, utf8))
  }

  /** An `exported` that parses as a boolean and a `name` that is UTF-8 are kept; all else is ignored. */
  function ExportedKeyed(s: ExportedScan, k: Key, value: string, utf8: bool): ExportedScan {
    match k
    case ExportedKey =>
      if utf8 && Text.ParseBool(value).Some? then s.(exported := Text.ParseBool(value)) else s
    case NameKey =>
      if utf8 then s.(name := value) else s
    case _ => s
  }

  /** The scan of a component's attributes, or the first malformed attribute's error. */
  function ExportedScanOf(attrs: seq<Attribute>): Result<ExportedScan, AttributeError>
    decreases |attrs|
  {
    if attrs == [] then Ok(ExportedScan(None, ""))
    else match ExportedScanOf(attrs[..|attrs| - 1])
      case Err(e) => Err(e)
      case Ok(s) => ExportedAttribute(s, attrs[|attrs| - 1])
  }

  /** A malformed attribute ends the scan: the attributes after it change nothing. */
  lemma {:induction false} ExportedScanStopsAtError(attrs: seq<Attribute>, rest: seq<Attribute>)
    requires ExportedScanOf(attrs).Err?
    ensures ExportedScanOf(attrs + rest) == ExportedScanOf(attrs)
    decreases |rest|
  {
    if rest == [] {
      assert attrs + rest == attrs;
    } else {
      assert (attrs + rest)[..|attrs + rest| - 1] == attrs + rest[..|rest| - 1];
      ExportedScanStopsAtError(attrs, rest[..|rest| - 1]);
    }
  }

  /** The scan over one more attribute. */
  lemma ExportedScanSnoc(attrs: seq<Attribute>, a: Attribute)
    ensures ExportedScanOf(attrs + [a]) ==
      match ExportedScanOf(attrs)
      case Err(e) => Err(e)
      case Ok(s) => ExportedAttribute(s, a)
  {
    PrefixOfSnoc(attrs, a);
  }

  /** The scan up to one more attribute. */
  lemma ExportedScanNext(attrs: seq<Attribute>, i: nat)
    requires i < |attrs|
    ensures ExportedScanOf(attrs[..i + 1]) ==
      match ExportedScanOf(attrs[..i])
      case Err(e) => Err(e)
      case Ok(s) => ExportedAttribute(s, attrs[i])
  {
    SlicePrefix(attrs, i + 1, i);
  }

  /** An `exported` value that is not a boolean is ignored, as if it were absent. */
  lemma ExportedIgnoresNonBoolean(attrs: seq<Attribute>, prefix: string, value: string)
    requires Text.ParseBool(value).None?
    ensures ExportedScanOf(attrs + [Attr(prefix + ":" + KeyName(ExportedKey), value, true)]) == ExportedScanOf(attrs)
  {
    var a := Attr(prefix + ":" + KeyName(ExportedKey), value, true);
    PrefixedKey(prefix, ExportedKey);
    PrefixOfSnoc(attrs, a);
    ExportedScanSnoc(attrs, a);
    if ExportedScanOf(attrs).Ok? {
      var sc := ExportedScanOf(attrs).value;
      assert ExportedKeyed(sc, ExportedKey, value, true) == sc;
    }
  }

  /**
    * The component is reported when it is not explicitly unexported and, for a provider,
    * when `exported` was given or the minimum SDK is below 17 (from 17 on, providers are
    * not exported by default).
    */
  predicate ExportedWarning(tag: string, exported: Option<bool>, minSdk: nat) {
    match exported
    case Some(false) => false
    case _ => tag != "provider" || exported.Some? || minSdk < 17
  }

  /** The findings `check_exported_attributes` adds for one component. */
  function ExportedFindings(tag: string, attrs: seq<Attribute>, minSdk: nat, code: string, min: Criticality): Result<seq<Vulnerability>, AttributeError> {
    match ExportedScanOf(attrs)
    case Err(e) => Err(e)
    case Ok(s) =>
      if ExportedWarning(tag, s.exported, minSdk) && Le(min, Warning) then
        Ok([ExportedFinding(tag, s.name, code)])
      else Ok([])
  }

  /** The warning for an exported component, located at the first line declaring its name. */
  function ExportedFinding(tag: string, name: string, code: string): (v: Vulnerability)
    ensures v.criticality == Warning && v.name == "Exported " + tag
    ensures v.description == "Exported " + tag + " was found. It can be used by other applications."
  {
    ManifestFinding(Warning, "Exported " + tag,
      "Exported " + tag + " was found. It can be used by other applications.",
      code, "android:name=\"" + name + "\"")
  }

  /**
    * A component is reported iff it is not explicitly unexported and the provider
    * exception does not apply, and only when warnings are wanted; the finding is a warning
    * naming the tag.
    */
  lemma ExportedFindingsIff(tag: string, attrs: seq<Attribute>, minSdk: nat, code: string, min: Criticality)
    requires ExportedScanOf(attrs).Ok?
    ensures var s := ExportedScanOf(attrs).value;
      var r := ExportedFindings(tag, attrs, minSdk, code, min);
      r.Ok? && (r.value != [] <==>
        s.exported != Some(false) && (tag != "provider" || s.exported.Some? || minSdk < 17) && min == Warning)
    ensures var r := ExportedFindings(tag, attrs, minSdk, code, min);
      forall v :: v in r.value ==> v.criticality == Warning && v.name == "Exported " + tag
  {
  }

  /** A provider without `exported` on SDK 17 and above is never reported; an activity is. */
  lemma ProviderDefaultsUnexported(attrs: seq<Attribute>, minSdk: nat, code: string)
    requires ExportedScanOf(attrs) == Ok(ExportedScan(None, ""))
    ensures minSdk >= 17 ==> ExportedFindings("provider", attrs, minSdk, code, Warning) == Ok([])
    ensures |ExportedFindings("activity", attrs, minSdk, code, Warning).value| == 1
  {
  }

  /** The settings the handlers read from the configuration. */
  datatype Settings = Settings(minCriticality: Criticality, unknownCriticality: Criticality, unknownDescription: string)

  /** What `parse_permission_attributes` has done: flags raised, findings, and whether it stopped. */
  datatype PermissionScan = PermissionScan(needed: set<Permissions.Permission>, found: seq<Vulnerability>, stopped: bool)

  /**
    * One attribute of `<uses-permission>`: a known `name` raises its flag; an unknown one
    * is reported when its configured criticality is strictly above the minimum, and ends
    * the element, as does a name that is not UTF-8.
    */
  function PermissionAttribute(s: PermissionScan, a: Attribute, code: string, settings: Settings): Result<PermissionScan, AttributeError> {
    match a
    case Malformed => Err(MalformedAttribute)
    case Attr(key, value, utf8) =>
      if AttributeKey(key) != NameKey then Ok(s) else Ok(PermissionName(s, value, utf8, code, settings))
  }

  /** The `name` of `<uses-permission>`, looked up in the permission table. */
  function PermissionName(s: PermissionScan, value: string, utf8: bool, code: string, settings: Settings): (r: PermissionScan)
    ensures KnownPermission(value, utf8).Some? ==> r == s.(needed := s.needed + {KnownPermission(value, utf8).value})
    ensures KnownPermission(value, utf8).None? ==>
      r.stopped && r.needed == s.needed
      && r.found == s.found + (if utf8 then UnknownPermissionFindings(value, code, settings) else [])
  {
    match KnownPermission(value, utf8)
    case Some(p) => s.(needed := s.needed + {p})
    case None =>
      if utf8 then s.(found := s.found + UnknownPermissionFindings(value, code, settings), stopped := true)
      else s.(stopped := true)
  }

  /**
    * The permission a value names: `try_from` on the bytes; a value that is not UTF-8 names
    * none, every permission's name being ASCII.
    */
  function KnownPermission(value: string, utf8: bool): (r: Option<Permissions.Permission>)
    ensures r.Some? <==> utf8 && Permissions.TryFrom(value).Ok?
    ensures r.Some? ==> Permissions.AsStr(r.value) == value && r.value == Permissions.TryFrom(value).value
  {
    if utf8 then
      match Permissions.TryFrom(value)
      case Ok(p) => Some(p)
      case Err(_) => None
    else None
  }

  /** The report of an unknown permission: one finding when strictly above the minimum, else none. */
  function UnknownPermissionFindings(name: string, code: string, settings: Settings): (r: seq<Vulnerability>)
    ensures |r| == (if Lt(settings.minCriticality, settings.unknownCriticality) then 1 else 0)
    ensures forall v :: v in r ==>
      v.name == "Unknown permission" && v.criticality == settings.unknownCriticality
      && v.description == settings.unknownDescription && v.startLine == GetLine(code, name)
  {
    if Lt(settings.minCriticality, settings.unknownCriticality) then
      [ManifestFinding(settings.unknownCriticality, "Unknown permission", settings.unknownDescription, code, name)]
    else []
  }

  /** The handler's loop: attributes in order until it stops or meets a malformed one. */
  function PermissionScanOf(s: PermissionScan, attrs: seq<Attribute>, code: string, settings: Settings): (PermissionScan, Option<AttributeError>)
    decreases |attrs|
  {
    if attrs == [] then (s, None)
    else
      var (before, failed) := PermissionScanOf(s, attrs[..|attrs| - 1], code, settings);
      if failed.Some? || before.stopped then (before, failed)
      else match PermissionAttribute(before, attrs[|attrs| - 1], code, settings)
        case Ok(after) => (after, None)
        case Err(e) => (before, Some(e))
  }

  /** A report of an unknown permission at the configured criticality, strictly above the minimum. */
  predicate UnknownReport(v: Vulnerability, settings: Settings) {
    v.name == "Unknown permission" && v.criticality == settings.unknownCriticality
    && Lt(settings.minCriticality, v.criticality)
  }

  /** `t` keeps everything of `s`, and only adds permissions and reports of unknown permissions. */
  predicate Extends(s: PermissionScan, t: PermissionScan, settings: Settings) {
    s.needed <= t.needed && |s.found| <= |t.found| && t.found[..|s.found|] == s.found
    && forall i :: |s.found| <= i < |t.found| ==> UnknownReport(t.found[i], settings)
  }

  lemma ExtendsRefl(s: PermissionScan, settings: Settings)
    ensures Extends(s, s, settings)
  {
    WholeSlice(s.found);
  }

  lemma ExtendsTrans(s: PermissionScan, t: PermissionScan, u: PermissionScan, settings: Settings)
    requires Extends(s, t, settings) && Extends(t, u, settings)
    ensures Extends(s, u, settings)
  {
    assert forall k :: 0 <= k < |s.found| ==> u.found[k] == t.found[k];
    assert forall i :: |s.found| <= i < |t.found| ==> u.found[i] == t.found[i];
  }

  /**
    * The permission handler only raises flags and adds findings, every finding being an
    * unknown permission of the configured criticality, strictly above the minimum.
    */
  lemma {:induction false} PermissionScanGrows(s: PermissionScan, attrs: seq<Attribute>, code: string, settings: Settings)
    ensures Extends(s, PermissionScanOf(s, attrs, code, settings).0, settings)
    ensures s.stopped ==> PermissionScanOf(s, attrs, code, settings).0 == s
    decreases |attrs|
  {
    if attrs == [] {
      ExtendsRefl(s, settings);
    } else {
      PermissionScanGrows(s, attrs[..|attrs| - 1], code, settings);
      var (before, failed) := PermissionScanOf(s, attrs[..|attrs| - 1], code, settings);
      if failed.None? && !before.stopped {
        var r := PermissionAttribute(before, attrs[|attrs| - 1], code, settings);
        PermissionAttributeGrows(before, attrs[|attrs| - 1], code, settings);
        if r.Ok? {
          ExtendsTrans(s, before, r.value, settings);
        }
      }
    }
  }

  /** One attribute of `<uses-permission>` only adds a permission or a report. */
  lemma PermissionAttributeGrows(s: PermissionScan, a: Attribute, code: string, settings: Settings)
    ensures var r := PermissionAttribute(s, a, code, settings);
      r.Ok? ==> Extends(s, r.value, settings)
  {
    if a.Attr? {
      if AttributeKey(a.key) == NameKey {
        PermissionNameGrows(s, a.value, a.utf8, code, settings);
      } else {
        ExtendsRefl(s, settings);
      }
    }
  }

  /** A permission name only adds the permission it names, or a report of an unknown one. */
  lemma PermissionNameGrows(s: PermissionScan, value: string, utf8: bool, code: string, settings: Settings)
    ensures Extends(s, PermissionName(s, value, utf8, code, settings), settings)
  {
    var r := PermissionName(s, value, utf8, code, settings);
    if KnownPermission(value, utf8).Some? {
      WholeSlice(s.found);
    } else {
      var u := if utf8 then UnknownPermissionFindings(value, code, settings) else [];
      assert r.needed == s.needed && r.found == s.found + u;
      ExtendsByReports(s, r, u, settings);
    }
  }

  /** Adding reports of unknown permissions, and nothing else, extends a scan. */
  lemma ExtendsByReports(s: PermissionScan, t: PermissionScan, u: seq<Vulnerability>, settings: Settings)
    requires t.needed == s.needed && t.found == s.found + u
    requires forall v :: v in u ==> UnknownReport(v, settings)
    ensures Extends(s, t, settings)
  {
    PrefixOfConcat(s.found, u);
    assert forall i :: |s.found| <= i < |t.found| ==> t.found[i] == u[i - |s.found|];
  }

  /** A known permission name is recorded; an unknown one is reported iff above the minimum. */
  lemma UsesPermissionName(s: PermissionScan, prefix: string, value: string, code: string, settings: Settings)
    requires !s.stopped
    ensures var r := PermissionScanOf(s, [Attr(prefix + ":" + KeyName(NameKey), value, true)], code, settings).0;
      Permissions.TryFrom(value).Ok? ==> r == s.(needed := s.needed + {Permissions.TryFrom(value).value})
    ensures var r := PermissionScanOf(s, [Attr(prefix + ":" + KeyName(NameKey), value, true)], code, settings).0;
      Permissions.TryFrom(value).Err? ==>
        r.stopped && r.needed == s.needed
        && (|r.found| > |s.found| <==> Lt(settings.minCriticality, settings.unknownCriticality))
  {
    var a := Attr(prefix + ":" + KeyName(NameKey), value, true);
    PrefixedKey(prefix, NameKey);
    PermissionScanSingle(s, a, code, settings);
    assert PermissionAttribute(s, a, code, settings) == Ok(PermissionName(s, value, true, code, settings));
  }

  /** The handler's loop over a single attribute. */
  lemma PermissionScanSingle(s: PermissionScan, a: Attribute, code: string, settings: Settings)
    requires !s.stopped
    ensures PermissionScanOf(s, [a], code, settings) ==
      match PermissionAttribute(s, a, code, settings)
      case Ok(after) => (after, None)
      case Err(e) => (s, Some(e))
  {
    assert [a][..0] == [];
  }

  /** An unknown name ends the element: no later name is recorded. */
  lemma UnknownPermissionStops(s: PermissionScan, prefix: string, value: string, rest: seq<Attribute>, code: string, settings: Settings)
    requires !s.stopped && Permissions.TryFrom(value).Err?
    ensures PermissionScanOf(s, [Attr(prefix + ":" + KeyName(NameKey), value, true)] + rest, code, settings).0.needed == s.needed
  {
    var first := [Attr(prefix + ":" + KeyName(NameKey), value, true)];
    UsesPermissionName(s, prefix, value, code, settings);
    PermissionScanAfterStop(s, first, rest, code, settings);
  }

  /** One more attribute, while the handler has neither stopped nor failed. */
  lemma PermissionScanNext(s: PermissionScan, attrs: seq<Attribute>, i: nat, code: string, settings: Settings)
    requires i < |attrs|
    requires PermissionScanOf(s, attrs[..i], code, settings).1.None?
    requires !PermissionScanOf(s, attrs[..i], code, settings).0.stopped
    ensures var before := PermissionScanOf(s, attrs[..i], code, settings).0;
      PermissionScanOf(s, attrs[..i + 1], code, settings) ==
        match PermissionAttribute(before, attrs[i], code, settings)
        case Ok(after) => (after, None)
        case Err(e) => (before, Some(e))
  {
    SlicePrefix(attrs, i + 1, i);
  }

  /** Once the handler has stopped or failed, the attributes after that change nothing. */
  lemma {:induction false} PermissionScanAfterStop(s: PermissionScan, attrs: seq<Attribute>, rest: seq<Attribute>, code: string, settings: Settings)
    requires PermissionScanOf(s, attrs, code, settings).0.stopped || PermissionScanOf(s, attrs, code, settings).1.Some?
    ensures PermissionScanOf(s, attrs + rest, code, settings) == PermissionScanOf(s, attrs, code, settings)
    decreases |rest|
  {
    if rest == [] {
      assert attrs + rest == attrs;
    } else {
      assert (attrs + rest)[..|attrs + rest| - 1] == attrs + rest[..|rest| - 1];
      PermissionScanAfterStop(s, attrs, rest[..|rest| - 1], code, settings);
    }
  }

  /** An event of the XML parser. */
  datatype XmlEvent = Start(name: string, attributes: seq<Attribute>) | Eof | OtherEvent | XmlError

  /** The elements `load` hands to a handler; the components are those whose `exported` is checked. */
  datatype Element = ManifestTag | UsesSdkTag | ApplicationTag | UsesPermissionTag | ComponentTag | OtherTag

  function ElementOf(name: string): Element {
    if name == "manifest" then ManifestTag
    else if name == "uses-sdk" then UsesSdkTag
    else if name == "application" then ApplicationTag
    else if name == "uses-permission" then UsesPermissionTag
    else if name == "provider" || name == "receiver" || name == "activity" || name == "activity-alias" || name == "service" then ComponentTag
    else OtherTag
  }

  /** What `load` has built: the fields, the raised permission flags, and the findings added. */
  datatype LoadState = LoadState(data: ManifestData, needed: set<Permissions.Permission>, found: seq<Vulnerability>)

  /**
    * One event of `load`: a start tag goes to its element's handler, whose error is only
    * warned about; other tags, other events and parser errors change nothing.
    */
  function LoadEvent(s: LoadState, e: XmlEvent, code: string, strings: map<string, string>, settings: Settings): LoadState {
    match e
    case Start(name, attrs) => LoadStart(s, name, attrs, code, strings, settings)
    case _ => s
  }

  /** A start tag: its element's handler runs, and what it reports joins the findings. */
  function LoadStart(s: LoadState, name: string, attrs: seq<Attribute>, code: string, strings: map<string, string>, settings: Settings): LoadState {
    var r := ElementStart(s.data, s.needed, ElementOf(name), name, attrs, code, strings, settings);
    r.(found := s.found + r.found)
  }

  /**
    * The handler of a start tag, from the fields and permission flags read so far: the
    * new fields and flags, and the findings the handler reports. A handler's error is only
    * warned about, so what it did before the error stands.
    */
  function ElementStart(d: ManifestData, needed: set<Permissions.Permission>, element: Element, name: string,
    attrs: seq<Attribute>, code: string, strings: map<string, string>, settings: Settings): LoadState
  {
    match element
    case ManifestTag => LoadState(AttributesAfter(ManifestElement, d, attrs).0, needed, [])
    case UsesSdkTag => LoadState(AttributesAfter(SdkElement, d, attrs).0, needed, [])
    case ApplicationTag => LoadState(AttributesAfter(ApplicationElement(strings), d, attrs).0, needed, [])
    case UsesPermissionTag =>
      var p := PermissionScanOf(PermissionScan(needed, [], false), attrs, code, settings).0;
      LoadState(d, p.needed, p.found)
    case ComponentTag =>
      (match ExportedFindings(name, attrs, d.minSdk, code, settings.minCriticality)
      case Ok(fs) => LoadState(d, needed, fs)
      case Err(_) => LoadState(d, needed, []))
    case OtherTag => LoadState(d, needed, [])
  }

  function LoadEvents(s: LoadState, events: seq<XmlEvent>, code: string, strings: map<string, string>, settings: Settings): LoadState
    decreases |events|
  {
    if events == [] then s
    else LoadEvent(LoadEvents(s, events[..|events| - 1], code, strings, settings), events[|events| - 1], code, strings, settings)
  }

  /** The position of the first end-of-document event, or the length when there is none. */
  function FirstEof(events: seq<XmlEvent>): (n: nat)
    ensures n <= |events|
    ensures forall i :: 0 <= i < n ==> !events[i].Eof?
    ensures n < |events| ==> events[n].Eof?
  {
    if events == [] then 0
    else if events[0].Eof? then 0
    else 1 + FirstEof(events[1..])
  }

  /** What `load` builds from the events up to the end of the document. */
  function Loaded(events: seq<XmlEvent>, code: string, strings: map<string, string>, settings: Settings): LoadState {
    LoadEvents(LoadState(DefaultData, {}, []), events[..FirstEof(events)], code, strings, settings)
  }

  /**
    * Over the whole document the flags only go up and the permission flags and findings
    * only grow.
    */
  lemma {:induction false} LoadEventsGrow(s: LoadState, events: seq<XmlEvent>, code: string, strings: map<string, string>, settings: Settings)
    ensures var r := LoadEvents(s, events, code, strings, settings);
      FlagsRise(s.data, r.data) && s.needed <= r.needed && |s.found| <= |r.found| && r.found[..|s.found|] == s.found
    decreases |events|
  {
    if events != [] {
      var mid := LoadEvents(s, events[..|events| - 1], code, strings, settings);
      LoadEventsGrow(s, events[..|events| - 1], code, strings, settings);
      var e := events[|events| - 1];
      if e.Start? {
        ElementStartGrows(mid.data, mid.needed, ElementOf(e.name), e.name, e.attributes, code, strings, settings);
      }
    }
  }

  lemma ElementStartGrows(d: ManifestData, needed: set<Permissions.Permission>, element: Element, name: string,
    attrs: seq<Attribute>, code: string, strings: map<string, string>, settings: Settings)
    ensures var r := ElementStart(d, needed, element, name, attrs, code, strings, settings);
      FlagsRise(d, r.data) && needed <= r.needed
  {
    match element
    case ManifestTag => AttributesRaiseFlagsOnly(ManifestElement, d, attrs);
    case UsesSdkTag => AttributesRaiseFlagsOnly(SdkElement, d, attrs);
    case ApplicationTag => AttributesRaiseFlagsOnly(ApplicationElement(strings), d, attrs);
    case UsesPermissionTag => PermissionScanGrows(PermissionScan(needed, [], false), attrs, code, settings);
    case ComponentTag =>
    case OtherTag =>
  }

  /** Nothing after the end of the document is read. */
  lemma LoadedStopsAtEof(events: seq<XmlEvent>, rest: seq<XmlEvent>, code: string, strings: map<string, string>, settings: Settings)
    requires forall i :: 0 <= i < |events| ==> !events[i].Eof?
    ensures Loaded(events + [Eof] + rest, code, strings, settings) == Loaded(events, code, strings, settings)
  {
    var all := events + [Eof] + rest;
    FirstEofAt(events, [Eof] + rest);
    assert all == events + ([Eof] + rest);
    assert all[..|events|] == events;
    FirstEofAt(events, []);
    assert events + [] == events;
    WholeSlice(events);
  }

  lemma {:induction false} FirstEofAt(events: seq<XmlEvent>, rest: seq<XmlEvent>)
    requires forall i :: 0 <= i < |events| ==> !events[i].Eof?
    requires rest == [] || rest[0].Eof?
    ensures FirstEof(events + rest) == |events|
    decreases |events|
  {
    if events != [] {
      assert (events + rest)[1..] == events[1..] + rest;
      FirstEofAt(events[1..], rest);
    }
  }

  /** The three flag rules of `analysis`. */
  datatype FlagRule = DebugRule | LargeHeapRule | AllowBackupRule

  /** The flag a rule looks at. */
  function RuleFlag(r: FlagRule, d: ManifestData): bool {
    match r
    case DebugRule => d.debug
    case LargeHeapRule => d.largeHeap
    case AllowBackupRule => d.allowsBackup
  }

  function RuleCriticality(r: FlagRule): Criticality {
    match r
    case DebugRule => Critical
    case LargeHeapRule => Warning
    case AllowBackupRule => Medium
  }

  function RuleName(r: FlagRule): string {
    match r
    case DebugRule => "Manifest Debug"
    case LargeHeapRule => "Large heap"
    case AllowBackupRule => "Allows Backup"
  }

  /** The description of each flag rule, one text per rule. */
  datatype FlagTexts = FlagTexts(debug: string, largeHeap: string, allowBackup: string)

  /** The descriptions `analysis` gives the three flag rules. */
  const SourceFlagTexts := FlagTexts(
    "The application is in debug mode. This allows any malicious person to inject arbitrary code in the application. This option should only be used while in development.",
    "The application needs a large heap. This is not a vulnerability as such, but could be in devices with small heap. Check if the large heap is actually needed.",
    "This option allows backups of the application data via adb. Malicious people with physical access could use adb to get private data of your app into their PC.")

  function RuleDescription(r: FlagRule, texts: FlagTexts): string {
    match r
    case DebugRule => texts.debug
    case LargeHeapRule => texts.largeHeap
    case AllowBackupRule => texts.allowBackup
  }

  /** The attribute text whose first line locates the finding. */
  function RuleNeedle(r: FlagRule): string {
    match r
    case DebugRule => "android:debuggable=\"true\""
    case LargeHeapRule => "android:largeHeap=\"true\""
    case AllowBackupRule => "android:allowBackup=\"true\""
  }

  /** The finding of a flag rule, located at the first line holding its attribute. */
  function FlagFinding(r: FlagRule, texts: FlagTexts, code: string): (v: Vulnerability)
    ensures v.criticality == RuleCriticality(r) && v.name == RuleName(r) && v.description == RuleDescription(r, texts)
  {
    ManifestFinding(RuleCriticality(r), RuleName(r), RuleDescription(r, texts), code, RuleNeedle(r))
  }

  /** One flag rule when its flag is up and its criticality reaches the minimum; nothing otherwise. */
  function Selected(r: FlagRule, on: bool, min: Criticality): seq<FlagRule> {
    if on && Le(min, RuleCriticality(r)) then [r] else []
  }

  lemma SelectedCases(r: FlagRule, on: bool, min: Criticality)
    ensures on && Le(min, RuleCriticality(r)) ==> Selected(r, on, min) == [r]
    ensures !(on && Le(min, RuleCriticality(r))) ==> Selected(r, on, min) == []
  {
  }

  /** The flag rules that report, in the order `analysis` runs them. */
  function ReportedFlags(d: ManifestData, min: Criticality): seq<FlagRule> {
    Selected(DebugRule, d.debug, min) + Selected(LargeHeapRule, d.largeHeap, min)
    + Selected(AllowBackupRule, d.allowsBackup, min)
  }

  /** The finding of a configured permission, located at the first line naming it. */
  function PermissionFinding(p: Configs.ConfigPermission, code: string): (v: Vulnerability)
    ensures v.criticality == p.criticality && v.name == p.permissionLabel && v.description == p.description
  {
    ManifestFinding(p.criticality, p.permissionLabel, p.description, code, Permissions.AsStr(p.name))
  }

  /** The configured permissions `analysis` reports: each, in order, that the manifest asks for and that reaches the minimum. */
  function ReportedPermissions(perms: seq<Configs.ConfigPermission>, needed: set<Permissions.Permission>, min: Criticality): seq<Configs.ConfigPermission>
    decreases |perms|
  {
    if perms == [] then []
    else
      var p := perms[|perms| - 1];
      ReportedPermissions(perms[..|perms| - 1], needed, min)
      + (if p.name in needed && Le(min, p.criticality) then [p] else [])
  }

  /** One more configured permission is reported after the earlier ones exactly when it is asked for and reaches the minimum. */
  lemma ReportedPermissionsStep(perms: seq<Configs.ConfigPermission>, i: nat, needed: set<Permissions.Permission>,
    min: Criticality)
    requires i < |perms|
    ensures ReportedPermissions(perms[..i + 1], needed, min) == ReportedPermissions(perms[..i], needed, min)
      + (if perms[i].name in needed && Le(min, perms[i].criticality) then [perms[i]] else [])
  {
    SlicePrefix(perms, i + 1, i);
  }

  /** The findings of the given flag rules, in order. */
  function FlagFindings(rules: seq<FlagRule>, texts: FlagTexts, code: string): (fs: seq<Vulnerability>)
    ensures |fs| == |rules|
    decreases |rules|
  {
    if rules == [] then [] else FlagFindings(rules[..|rules| - 1], texts, code) + [FlagFinding(rules[|rules| - 1], texts, code)]
  }

  /** The findings of the given configured permissions, in order. */
  function PermissionFindings(perms: seq<Configs.ConfigPermission>, code: string): (fs: seq<Vulnerability>)
    ensures |fs| == |perms|
    decreases |perms|
  {
    if perms == [] then [] else PermissionFindings(perms[..|perms| - 1], code) + [PermissionFinding(perms[|perms| - 1], code)]
  }

  lemma FlagFindingsSnoc(rules: seq<FlagRule>, r: FlagRule, texts: FlagTexts, code: string)
    ensures FlagFindings(rules + [r], texts, code) == FlagFindings(rules, texts, code) + [FlagFinding(r, texts, code)]
  {
    assert (rules + [r])[..|rules|] == rules;
  }

  lemma FlagFindingsOne(r: FlagRule, texts: FlagTexts, code: string)
    ensures FlagFindings([r], texts, code) == [FlagFinding(r, texts, code)]
  {
    FlagFindingsSnoc([], r, texts, code);
    ConcatNil([r]);
    ConcatNil([FlagFinding(r, texts, code)]);
  }

  /** The findings of two runs of rules, one after the other, are those of the joined runs. */
  lemma {:induction false} FlagFindingsConcat(xs: seq<FlagRule>, ys: seq<FlagRule>, texts: FlagTexts, code: string)
    ensures FlagFindings(xs + ys, texts, code) == FlagFindings(xs, texts, code) + FlagFindings(ys, texts, code)
    decreases |ys|
  {
    if ys == [] {
      assert xs + ys == xs;
      ConcatNil(FlagFindings(xs, texts, code));
    } else {
      var init, r := ys[..|ys| - 1], ys[|ys| - 1];
      assert ys == init + [r];
      assert xs + ys == (xs + init) + [r];
      FlagFindingsConcat(xs, init, texts, code);
      FlagFindingsSnoc(xs + init, r, texts, code);
      FlagFindingsSnoc(init, r, texts, code);
      ConcatAssoc(FlagFindings(xs, texts, code), FlagFindings(init, texts, code), [FlagFinding(r, texts, code)]);
    }
  }

  lemma PermissionFindingsSnoc(perms: seq<Configs.ConfigPermission>, p: Configs.ConfigPermission, code: string)
    ensures PermissionFindings(perms + [p], code) == PermissionFindings(perms, code) + [PermissionFinding(p, code)]
  {
    assert (perms + [p])[..|perms|] == perms;
  }

  /** Everything `analysis` adds for a loaded manifest: the flag findings, then the permission findings. */
  function AnalysisFindings(d: ManifestData, needed: set<Permissions.Permission>, perms: seq<Configs.ConfigPermission>,
    texts: FlagTexts, code: string, min: Criticality): seq<Vulnerability>
  {
    FlagFindings(ReportedFlags(d, min), texts, code) + PermissionFindings(ReportedPermissions(perms, needed, min), code)
  }

  /**
    * Each flag rule reports exactly when its flag is up and its criticality reaches the
    * minimum, at most once and in the order the rules run: debug mode (`Critical`) is
    * always reported, a large heap (`Warning`) only when warnings are wanted, backups
    * (`Medium`) from `Medium` down.
    */
  lemma ReportedFlagsIff(d: ManifestData, min: Criticality)
    ensures forall r :: r in ReportedFlags(d, min) <==> RuleFlag(r, d) && Le(min, RuleCriticality(r))
    ensures forall i, j :: 0 <= i < j < |ReportedFlags(d, min)| ==>
      RuleOrder(ReportedFlags(d, min)[i]) < RuleOrder(ReportedFlags(d, min)[j])
    ensures RuleCriticality(DebugRule) == Critical && RuleCriticality(LargeHeapRule) == Warning
      && RuleCriticality(AllowBackupRule) == Medium
  {
    var fs := ReportedFlags(d, min);
    var a, b, c := Selected(DebugRule, d.debug, min), Selected(LargeHeapRule, d.largeHeap, min),
      Selected(AllowBackupRule, d.allowsBackup, min);
    assert fs == a + b + c;
    assert forall k :: 0 <= k < |a| ==> fs[k] == DebugRule;
    assert forall k :: |a| <= k < |a| + |b| ==> fs[k] == LargeHeapRule;
    assert forall k :: |a| + |b| <= k < |fs| ==> fs[k] == AllowBackupRule;
  }

  /** The position of each rule in the order `analysis` runs them. */
  function RuleOrder(r: FlagRule): nat {
    match r
    case DebugRule => 0
    case LargeHeapRule => 1
    case AllowBackupRule => 2
  }

  /**
    * A configured permission is reported exactly when the manifest asks for it and its
    * criticality reaches the minimum; the reported ones keep the configuration's order.
    */
  lemma {:induction false} ReportedPermissionsIff(perms: seq<Configs.ConfigPermission>, needed: set<Permissions.Permission>, min: Criticality)
    ensures forall p :: p in ReportedPermissions(perms, needed, min) <==> p in perms && p.name in needed && Le(min, p.criticality)
    ensures |ReportedPermissions(perms, needed, min)| <= |perms|
    decreases |perms|
  {
    if perms != [] {
      var init := perms[..|perms| - 1];
      ReportedPermissionsIff(init, needed, min);
      assert perms == init + [perms[|perms| - 1]];
    }
  }
}
