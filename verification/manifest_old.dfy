/**
  * The older manifest analysis, written against the `xml-rs` parser. Attributes arrive as
  * a local name (the part after any namespace prefix) and a text value, so neither a
  * malformed attribute nor invalid UTF-8 can occur; a value that does not parse ends the
  * element's attribute loop (`break`); `get_line` answers with a `Result`.
  *
  * The fields and setters of `Manifest`, the permission table and `PermissionChecklist`
  * are the same as in the newer module and are taken from it; what this version does
  * differently is stated here, with lemmas that relate it to the newer one.
  */
module ManifestOld {
  import opened Common
  import Text
  import opened Criticalities
  import opened Vulnerabilities
  import Permissions
  import M = Manifests
  import L = ManifestLoading
  import opened ResultsStore
  import Configs

  /** The two errors of `ErrorKind` raised here. */
  datatype ErrorKind = Parse | CodeNotFound

  /** `InstallLocation::from_str`: exactly the three names, with their case; anything else is `Parse`. */
  function InstallLocationFromStr(s: string): (r: Result<M.InstallLocation, ErrorKind>)
    ensures forall l :: r == Ok(l) <==> M.LocationName(l) == s
    ensures r.Err? ==> r.error == Parse
  {
    if s == "internalOnly" then Ok(M.InternalOnly)
    else if s == "auto" then Ok(M.Auto)
    else if s == "preferExternal" then Ok(M.PreferExternal)
    else Err(Parse)
  }

  /** Both versions accept the same names for the same locations; the unit test's cases hold. */
  lemma InstallLocationAsNewer(s: string, l: M.InstallLocation)
    ensures InstallLocationFromStr(s) == Ok(l) <==> M.InstallLocationFromStr(s) == Ok(l)
    ensures InstallLocationFromStr(M.LocationName(l)) == Ok(l)
    ensures InstallLocationFromStr("Razican") == Err(Parse)
  {
  }

  /**
    * `get_line`: the 0-based number of the first line of `code` containing `haystack`, or
    * `CodeNotFound` when no line does. `.ok()` of it is the newer `get_line`.
    */
  method GetLine(code: string, haystack: string) returns (r: Result<nat, ErrorKind>)
    ensures r.Ok? <==> M.GetLine(code, haystack).Some?
    ensures r.Ok? ==> M.GetLine(code, haystack) == Some(r.value)
    ensures r.Err? ==> r.error == CodeNotFound
  {
    var lines := Text.Lines(code);
    for i := 0 to |lines|
      invariant forall j :: 0 <= j < i ==> !Text.Contains(lines[j], haystack)
    {
      if Text.Contains(lines[i], haystack) {
        return Ok(i);
      }
    }
    return Err(CodeNotFound);
  }

  /** An attribute as `xml-rs` yields it: its local name and its text value. */
  datatype OldAttribute = OldAttribute(localName: string, value: string)

  /** The same attribute as the newer parser yields it: the key, the value's bytes, valid UTF-8. */
  function AsAttribute(a: OldAttribute): M.Attribute {
    M.Attr(a.localName, a.value, true)
  }

  function AsAttributes(attrs: seq<OldAttribute>): (r: seq<M.Attribute>)
    ensures |r| == |attrs|
    ensures forall i :: 0 <= i < |attrs| ==> r[i] == AsAttribute(attrs[i])
  {
    seq(|attrs|, i requires 0 <= i < |attrs| => AsAttribute(attrs[i]))
  }

  lemma AsAttributesCons(a: OldAttribute, rest: seq<OldAttribute>)
    ensures AsAttributes([a] + rest) == [AsAttribute(a)] + AsAttributes(rest)
  {
  }

  lemma AsAttributesPrefix(attrs: seq<OldAttribute>, n: nat)
    requires n <= |attrs|
    ensures AsAttributes(attrs)[..n] == AsAttributes(attrs[..n])
  {
  }

  /** A local name, as `xml-rs` splits it from its prefix, holds no `':'`. */
  predicate LocalNames(attrs: seq<OldAttribute>) {
    forall i :: 0 <= i < |attrs| ==> ':' !in attrs[i].localName
  }

  /**
    * One attribute of `<manifest>`: `None` is the `break`, taken when the version code is
    * not a `u32` or the install location is none of the three names.
    */
  function ManifestAttribute(d: M.ManifestData, k: M.Key, value: string): (r: Option<M.ManifestData>)
    ensures r.None? <==>
      (k == M.VersionCodeKey && Text.ParseU32(value).None?) || (k == M.InstallLocationKey && InstallLocationFromStr(value).Err?)
    ensures r.Some? ==> r.value.(package := d.package, versionNumber := d.versionNumber,
      versionStr := d.versionStr, installLocation := d.installLocation) == d
  {
    match k
    case PackageKey => Some(d.(package := value))
    case VersionCodeKey =>
      (match Text.ParseU32(value)
      case Some(n) => Some(d.(versionNumber := n))
      case None => None)
    case VersionNameKey => Some(d.(versionStr := value))
    case InstallLocationKey =>
      (match InstallLocationFromStr(value)
      case Ok(l) => Some(d.(installLocation := l))
      case Err(_) => None)
    case _ => Some(d)
  }

  /** One attribute of `<uses-sdk>`: a level that is not a `u32` is the `break`. */
  function SdkAttribute(d: M.ManifestData, k: M.Key, value: string): (r: Option<M.ManifestData>)
    ensures r.None? <==> (k == M.MinSdkVersionKey || k == M.TargetSdkVersionKey) && Text.ParseU32(value).None?
    ensures r.Some? ==> r.value.(minSdk := d.minSdk, targetSdk := d.targetSdk) == d
  {
    match k
    case MinSdkVersionKey =>
      (match Text.ParseU32(value)
      case Some(n) => Some(d.(minSdk := n))
      case None => None)
    case TargetSdkVersionKey =>
      (match Text.ParseU32(value)
      case Some(n) => Some(d.(targetSdk := Some(n)))
      case None => None)
    case _ => Some(d)
  }

  /** A `@string/<name>` label whose name `strings` does not hold. */
  predicate UnresolvedLabel(value: string, strings: map<string, string>) {
    Text.StartsWith(value, "@string/") && value[8..] !in strings
  }

  /**
    * One attribute of `<application>`: a flag that is not a boolean, or a `@string/`
    * label that `strings`, the application's string resources, cannot resolve, is the
    * `break`; a flag goes up only for `"true"`.
    */
  function ApplicationAttribute(d: M.ManifestData, k: M.Key, value: string, strings: map<string, string>): (r: Option<M.ManifestData>)
    ensures r.None? <==> (M.IsFlagKey(k) && Text.ParseBool(value).None?) || (k == M.LabelKey && UnresolvedLabel(value, strings))
    ensures r.Some? ==> M.FlagsRise(d, r.value)
    ensures r.Some? ==> r.value.(debug := d.debug, allowsBackup := d.allowsBackup, hasCode := d.hasCode,
      largeHeap := d.largeHeap, description := d.description, appLabel := d.appLabel) == d
  {
    match k
    case DebuggableKey =>
      (match Text.ParseBool(value)
      case Some(on) => Some(if on then d.(debug := true) else d)
      case None => None)
    case AllowBackupKey =>
      (match Text.ParseBool(value)
      case Some(on) => Some(if on then d.(allowsBackup := true) else d)
      case None => None)
    case DescriptionKey => Some(d.(description := value))
    case HasCodeKey =>
      (match Text.ParseBool(value)
      case Some(on) => Some(if on then d.(hasCode := true) else d)
      case None => None)
    case LargeHeapKey =>
      (match Text.ParseBool(value)
      case Some(on) => Some(if on then d.(largeHeap := true) else d)
      case None => None)
    case LabelKey =>
      if Text.StartsWith(value, "@string/") then
        if value[8..] in strings then Some(d.(appLabel := strings[value[8..]])) else None
      else Some(d.(appLabel := value))
    case _ => Some(d)
  }

  /** One attribute, handed to the element's handler under the key of its local name. */
  function HandleAttribute(h: M.Handler, d: M.ManifestData, a: OldAttribute): Option<M.ManifestData> {
    HandleKeyed(h, d, M.KeyOf(a.localName), a.value)
  }

  /** An attribute, once its key is known, handed to the element's handler. */
  function HandleKeyed(h: M.Handler, d: M.ManifestData, k: M.Key, value: string): Option<M.ManifestData> {
    match h
    case ManifestElement => ManifestAttribute(d, k, value)
    case SdkElement => SdkAttribute(d, k, value)
    case ApplicationElement(strings) => ApplicationAttribute(d, k, value, strings)
  }

  /**
    * The handler's loop: each attribute in order until the first `break`; the fields as
    * they are then, and whether the loop broke off.
    */
  function AttributesAfter(h: M.Handler, d: M.ManifestData, attrs: seq<OldAttribute>): (M.ManifestData, bool)
    decreases |attrs|
  {
    if attrs == [] then (d, false)
    else
      var (before, stopped) := AttributesAfter(h, d, attrs[..|attrs| - 1]);
      if stopped then (before, true)
      else match HandleAttribute(h, before, attrs[|attrs| - 1])
        case Some(after) => (after, false)
        case None => (before, true)
  }

  /** A `break` ends the element: the attributes after it change nothing. */
  lemma {:induction false} AttributesStopAtBreak(h: M.Handler, d: M.ManifestData, attrs: seq<OldAttribute>, rest: seq<OldAttribute>)
    requires AttributesAfter(h, d, attrs).1
    ensures AttributesAfter(h, d, attrs + rest) == AttributesAfter(h, d, attrs)
    decreases |rest|
  {
    if rest == [] {
      assert attrs + rest == attrs;
    } else {
      assert (attrs + rest)[..|attrs + rest| - 1] == attrs + rest[..|rest| - 1];
      AttributesStopAtBreak(h, d, attrs, rest[..|rest| - 1]);
    }
  }

  /** The attribute at `i` breaks the loop, which had not broken before it: the element ends there. */
  lemma BreakAt(h: M.Handler, d: M.ManifestData, attrs: seq<OldAttribute>, i: nat)
    requires i < |attrs| && !AttributesAfter(h, d, attrs[..i]).1
    requires HandleAttribute(h, AttributesAfter(h, d, attrs[..i]).0, attrs[i]).None?
    ensures AttributesAfter(h, d, attrs) == (AttributesAfter(h, d, attrs[..i]).0, true)
  {
    SlicePrefix(attrs, i + 1, i);
    AttributesStopAtBreak(h, d, attrs[..i + 1], attrs[i + 1..]);
    SplitAt(attrs, i + 1);
  }

  /** The flags only go up, whatever the element and its attributes. */
  lemma {:induction false} AttributesRaiseFlagsOnly(h: M.Handler, d: M.ManifestData, attrs: seq<OldAttribute>)
    ensures M.FlagsRise(d, AttributesAfter(h, d, attrs).0)
    decreases |attrs|
  {
    if attrs != [] {
      AttributesRaiseFlagsOnly(h, d, attrs[..|attrs| - 1]);
    }
  }

  /**
    * An attribute the older handler reads as the newer one does: for `<application>`,
    * a flag must be a boolean and a `@string/` label must resolve.
    */
  predicate Readable(h: M.Handler, a: OldAttribute) {
    ReadableKeyed(h, M.KeyOf(a.localName), a.value)
  }

  predicate ReadableKeyed(h: M.Handler, k: M.Key, value: string) {
    h.ApplicationElement? ==>
      (M.IsFlagKey(k) ==> Text.ParseBool(value).Some?) && (k == M.LabelKey ==> !UnresolvedLabel(value, h.strings))
  }

  /** A readable value is handled by both versions alike; only the older one can break on it. */
  lemma HandleKeyedAsNewer(h: M.Handler, d: M.ManifestData, k: M.Key, value: string)
    requires ReadableKeyed(h, k, value)
    ensures HandleKeyed(h, d, k, value) ==
      match M.HandleKeyed(h, d, k, value, true)
      case Ok(after) => Some(after)
      case Err(_) => None
  {
  }

  /** Under its local name, an attribute has the key the newer handler finds in it. */
  lemma AttributeKeyLocal(a: OldAttribute)
    requires ':' !in a.localName
    ensures M.AttributeKey(a.localName) == M.KeyOf(a.localName)
  {
  }

  lemma HandleAsNewer(h: M.Handler, d: M.ManifestData, a: OldAttribute)
    requires ':' !in a.localName && Readable(h, a)
    ensures HandleAttribute(h, d, a) ==
      match M.HandleAttribute(h, d, AsAttribute(a))
      case Ok(after) => Some(after)
      case Err(_) => None
  {
    AttributeKeyLocal(a);
    HandleKeyedAsNewer(h, d, M.KeyOf(a.localName), a.value);
  }

  /**
    * Where every attribute is readable, the older loop ends where the newer one meets an
    * error, with the same fields: the two versions differ only in what they do with a
    * value they cannot read.
    */
  lemma {:induction false} AttributesAsNewer(h: M.Handler, d: M.ManifestData, attrs: seq<OldAttribute>)
    requires LocalNames(attrs) && forall i :: 0 <= i < |attrs| ==> Readable(h, attrs[i])
    ensures AttributesAfter(h, d, attrs) ==
      (M.AttributesAfter(h, d, AsAttributes(attrs)).0, M.AttributesAfter(h, d, AsAttributes(attrs)).1.Some?)
    decreases |attrs|
  {
    if attrs != [] {
      var n := |attrs| - 1;
      AttributesAsNewer(h, d, attrs[..n]);
      AsAttributesPrefix(attrs, n);
      var (before, stopped) := AttributesAfter(h, d, attrs[..n]);
      if !stopped {
        HandleAsNewer(h, before, attrs[n]);
      }
    }
  }

  /** The newer loop passes over an attribute that leaves the fields as they are. */
  lemma {:induction false} NewerSkipsFirst(h: M.Handler, d: M.ManifestData, x: M.Attribute, rest: seq<M.Attribute>)
    requires M.HandleAttribute(h, d, x) == Ok(d)
    ensures M.AttributesAfter(h, d, [x] + rest) == M.AttributesAfter(h, d, rest)
    decreases |rest|
  {
    if rest == [] {
      ConcatNil([x]);
      NewerSkipsOnly(h, d, x);
    } else {
      var init := rest[..|rest| - 1];
      var last := rest[|rest| - 1];
      SplitLast(rest);
      ConcatAssoc([x], init, [last]);
      NewerSkipsFirst(h, d, x, init);
      NewerSameAfterSame(h, d, [x] + init, init, last);
    }
  }

  /** An attribute that leaves the fields as they are, alone. */
  lemma NewerSkipsOnly(h: M.Handler, d: M.ManifestData, x: M.Attribute)
    requires M.HandleAttribute(h, d, x) == Ok(d)
    ensures M.AttributesAfter(h, d, [x]) == M.AttributesAfter(h, d, [])
  {
    assert [x][..0] == [];
  }

  /** Two attribute lists that leave the same fields leave the same fields after one more attribute. */
  lemma NewerSameAfterSame(h: M.Handler, d: M.ManifestData, a: seq<M.Attribute>, b: seq<M.Attribute>, y: M.Attribute)
    requires M.AttributesAfter(h, d, a) == M.AttributesAfter(h, d, b)
    ensures M.AttributesAfter(h, d, a + [y]) == M.AttributesAfter(h, d, b + [y])
  {
    PrefixOfSnoc(a, y);
    PrefixOfSnoc(b, y);
  }

  /**
    * Where the versions part: an `<application>` flag that is not a boolean, or a label
    * that does not resolve, is the older handler's `break`, while the newer one leaves
    * the fields as they are and reads on.
    */
  lemma UnreadableKeyed(d: M.ManifestData, k: M.Key, value: string, strings: map<string, string>)
    requires !ReadableKeyed(M.ApplicationElement(strings), k, value)
    ensures HandleKeyed(M.ApplicationElement(strings), d, k, value) == None
    ensures M.HandleKeyed(M.ApplicationElement(strings), d, k, value, true) == Ok(d)
  {
  }

  /** So an unreadable first attribute of `<application>` ends the older loop with nothing read... */
  lemma ApplicationBreaksAtUnreadable(d: M.ManifestData, a: OldAttribute, rest: seq<OldAttribute>, strings: map<string, string>)
    requires !Readable(M.ApplicationElement(strings), a)
    ensures AttributesAfter(M.ApplicationElement(strings), d, [a] + rest) == (d, true)
  {
    var h := M.ApplicationElement(strings);
    UnreadableKeyed(d, M.KeyOf(a.localName), a.value, strings);
    assert [a][..0] == [];
    assert AttributesAfter(h, d, [a]) == (d, true);
    AttributesStopAtBreak(h, d, [a], rest);
  }

  /** ... while the newer loop skips it and reads the rest. */
  lemma NewerSkipsUnreadable(d: M.ManifestData, a: OldAttribute, rest: seq<OldAttribute>, strings: map<string, string>)
    requires ':' !in a.localName && !Readable(M.ApplicationElement(strings), a)
    ensures M.AttributesAfter(M.ApplicationElement(strings), d, AsAttributes([a] + rest))
      == M.AttributesAfter(M.ApplicationElement(strings), d, AsAttributes(rest))
  {
    AttributeKeyLocal(a);
    UnreadableKeyed(d, M.KeyOf(a.localName), a.value, strings);
    AsAttributesCons(a, rest);
    NewerSkipsFirst(M.ApplicationElement(strings), d, AsAttribute(a), AsAttributes(rest));
  }

  /**
    * The loop of `parse_permission_attributes`: a known `name` raises its flag; an unknown
    * one is reported when its configured criticality is strictly above the minimum, and
    * ends the loop.
    */
  function PermissionScanOf(s: M.PermissionScan, attrs: seq<OldAttribute>, code: string, settings: M.Settings): M.PermissionScan
    decreases |attrs|
  {
    if attrs == [] then s
    else
      var before := PermissionScanOf(s, attrs[..|attrs| - 1], code, settings);
      if before.stopped then before else PermissionAttribute(before, attrs[|attrs| - 1], code, settings)
  }

  /** One attribute of `<uses-permission>`: only its `name` counts. */
  function PermissionAttribute(s: M.PermissionScan, a: OldAttribute, code: string, settings: M.Settings): M.PermissionScan {
    if M.KeyOf(a.localName) == M.NameKey then M.PermissionName(s, a.value, true, code, settings) else s
  }

  /** Once the loop has stopped, the attributes after that change nothing. */
  lemma {:induction false} PermissionScanAfterStop(s: M.PermissionScan, attrs: seq<OldAttribute>, rest: seq<OldAttribute>,
    code: string, settings: M.Settings)
    requires PermissionScanOf(s, attrs, code, settings).stopped
    ensures PermissionScanOf(s, attrs + rest, code, settings) == PermissionScanOf(s, attrs, code, settings)
    decreases |rest|
  {
    if rest == [] {
      assert attrs + rest == attrs;
    } else {
      assert (attrs + rest)[..|attrs + rest| - 1] == attrs + rest[..|rest| - 1];
      PermissionScanAfterStop(s, attrs, rest[..|rest| - 1], code, settings);
    }
  }

  /** Where the loop stops, it has its result. */
  lemma PermissionStopsAt(s: M.PermissionScan, attrs: seq<OldAttribute>, n: nat, code: string, settings: M.Settings)
    requires n <= |attrs| && PermissionScanOf(s, attrs[..n], code, settings).stopped
    ensures PermissionScanOf(s, attrs, code, settings) == PermissionScanOf(s, attrs[..n], code, settings)
  {
    PermissionScanAfterStop(s, attrs[..n], attrs[n..], code, settings);
    SplitAt(attrs, n);
  }

  /**
    * An unknown name ends the element: no later name is recorded, and it is reported
    * exactly when its criticality is strictly above the minimum.
    */
  lemma UnknownPermissionBreaks(s: M.PermissionScan, value: string, rest: seq<OldAttribute>, code: string, settings: M.Settings)
    requires !s.stopped && Permissions.FromStr(value).Err?
    ensures var r := PermissionScanOf(s, [OldAttribute("name", value)] + rest, code, settings);
      r.stopped && r.needed == s.needed
      && (|r.found| > |s.found| <==> Lt(settings.minCriticality, settings.unknownCriticality))
  {
    var first := [OldAttribute("name", value)];
    M.KeyOfName(M.NameKey);
    assert PermissionScanOf(s, first, code, settings) == M.PermissionName(s, value, true, code, settings) by {
      assert first[..0] == [];
    }
    assert M.KnownPermission(value, true).None?;
    PermissionScanAfterStop(s, first, rest, code, settings);
  }

  /** With local names for keys, the older permission loop does what the newer one does, and never fails. */
  lemma {:induction false} PermissionScanAsNewer(s: M.PermissionScan, attrs: seq<OldAttribute>, code: string, settings: M.Settings)
    requires LocalNames(attrs)
    ensures M.PermissionScanOf(s, AsAttributes(attrs), code, settings) == (PermissionScanOf(s, attrs, code, settings), None)
    decreases |attrs|
  {
    if attrs != [] {
      var n := |attrs| - 1;
      var ys := AsAttributes(attrs);
      PermissionScanAsNewer(s, attrs[..n], code, settings);
      AsAttributesPrefix(attrs, n);
      var before := PermissionScanOf(s, attrs[..n], code, settings);
      assert M.PermissionScanOf(s, ys[..n], code, settings) == (before, None);
      if !before.stopped {
        PermissionAttributeAsNewer(before, attrs[n], code, settings);
        assert ys[n] == AsAttribute(attrs[n]);
      }
    }
  }

  /** One `<uses-permission>` attribute with a local name, in the older loop and in the newer one. */
  lemma PermissionAttributeAsNewer(s: M.PermissionScan, a: OldAttribute, code: string, settings: M.Settings)
    requires ':' !in a.localName
    ensures M.PermissionAttribute(s, AsAttribute(a), code, settings) == Ok(PermissionAttribute(s, a, code, settings))
  {
    var key := a.localName;
    assert M.LocalName(key) == key;
    assert M.AttributeKey(key) == M.KeyOf(key);
    assert AsAttribute(a) == M.Attr(key, a.value, true);
  }

  /** The attribute loop of `check_exported_attributes`: the last boolean `exported`, the last `name`. */
  function ExportedScanOf(attrs: seq<OldAttribute>): M.ExportedScan
    decreases |attrs|
  {
    if attrs == [] then M.ExportedScan(None, "")
    else
      var a := attrs[|attrs| - 1];
      M.ExportedKeyed(ExportedScanOf(attrs[..|attrs| - 1]), M.KeyOf(a.localName), a.value, true)
  }

  /** The findings `check_exported_attributes` adds for one component. */
  function ExportedFindings(tag: string, attrs: seq<OldAttribute>, minSdk: nat, code: string, min: Criticality): seq<Vulnerability> {
    var s := ExportedScanOf(attrs);
    if M.ExportedWarning(tag, s.exported, minSdk) && Le(min, Warning) then [M.ExportedFinding(tag, s.name, code)] else []
  }

  /** The exported-component rule is the newer module's, on the same attributes. */
  lemma ExportedAsNewer(tag: string, attrs: seq<OldAttribute>, minSdk: nat, code: string, min: Criticality)
    requires LocalNames(attrs)
    ensures M.ExportedFindings(tag, AsAttributes(attrs), minSdk, code, min) == Ok(ExportedFindings(tag, attrs, minSdk, code, min))
  {
    ExportedScanAsNewer(attrs);
  }

  lemma {:induction false} ExportedScanAsNewer(attrs: seq<OldAttribute>)
    requires LocalNames(attrs)
    ensures M.ExportedScanOf(AsAttributes(attrs)) == Ok(ExportedScanOf(attrs))
    decreases |attrs|
  {
    if attrs != [] {
      var n := |attrs| - 1;
      ExportedScanAsNewer(attrs[..n]);
      AsAttributesPrefix(attrs, n);
      assert M.AttributeKey(attrs[n].localName) == M.KeyOf(attrs[n].localName);
    }
  }

  /** An event of the `xml-rs` reader: a start tag, any other event, or a parse error. */
  datatype Event = Start(name: string, attributes: seq<OldAttribute>) | OtherEvent | ParseError

  /** The handler of a start tag: the new fields and flags, and the findings it reports. */
  function ElementStart(d: M.ManifestData, needed: set<Permissions.Permission>, element: M.Element, name: string,
    attrs: seq<OldAttribute>, code: string, strings: map<string, string>, settings: M.Settings): M.LoadState
  {
    match element
    case ManifestTag => M.LoadState(AttributesAfter(M.ManifestElement, d, attrs).0, needed, [])
    case UsesSdkTag => M.LoadState(AttributesAfter(M.SdkElement, d, attrs).0, needed, [])
    case ApplicationTag => M.LoadState(AttributesAfter(M.ApplicationElement(strings), d, attrs).0, needed, [])
    case UsesPermissionTag =>
      var p := PermissionScanOf(M.PermissionScan(needed, [], false), attrs, code, settings);
      M.LoadState(d, p.needed, p.found)
    case ComponentTag => M.LoadState(d, needed, ExportedFindings(name, attrs, d.minSdk, code, settings.minCriticality))
    case OtherTag => M.LoadState(d, needed, [])
  }

  /** The walk of `load` over every event the reader yields; errors are only warned about. */
  function LoadEvents(s: M.LoadState, events: seq<Event>, code: string, strings: map<string, string>, settings: M.Settings): M.LoadState
    decreases |events|
  {
    if events == [] then s
    else
      var before := LoadEvents(s, events[..|events| - 1], code, strings, settings);
      match events[|events| - 1]
      case Start(name, attrs) =>
        var r := ElementStart(before.data, before.needed, M.ElementOf(name), name, attrs, code, strings, settings);
        r.(found := before.found + r.found)
      case _ => before
  }

  function Loaded(events: seq<Event>, code: string, strings: map<string, string>, settings: M.Settings): M.LoadState {
    LoadEvents(M.LoadState(M.DefaultData, {}, []), events, code, strings, settings)
  }

  /** The same events as the newer reader reports them; `xml-rs` stops by itself at the end. */
  function AsEvents(events: seq<Event>): (r: seq<M.XmlEvent>)
    ensures |r| == |events|
  {
    seq(|events|, i requires 0 <= i < |events| =>
      match events[i]
      case Start(name, attrs) => M.Start(name, AsAttributes(attrs))
      case OtherEvent => M.OtherEvent
      case ParseError => M.XmlError)
  }

  /** The start tags hold local names, and the attributes of `<application>` are readable. */
  predicate ReadableEvents(events: seq<Event>, strings: map<string, string>) {
    forall i :: 0 <= i < |events| && events[i].Start? ==>
      LocalNames(events[i].attributes)
      && (M.ElementOf(events[i].name) == M.ApplicationTag ==>
        forall j :: 0 <= j < |events[i].attributes| ==> Readable(M.ApplicationElement(strings), events[i].attributes[j]))
  }

  lemma ElementStartAsNewer(d: M.ManifestData, needed: set<Permissions.Permission>, element: M.Element, name: string,
    attrs: seq<OldAttribute>, code: string, strings: map<string, string>, settings: M.Settings)
    requires LocalNames(attrs)
    requires element == M.ApplicationTag ==> forall j :: 0 <= j < |attrs| ==> Readable(M.ApplicationElement(strings), attrs[j])
    ensures ElementStart(d, needed, element, name, attrs, code, strings, settings)
      == M.ElementStart(d, needed, element, name, AsAttributes(attrs), code, strings, settings)
  {
    match element
    case ManifestTag => AttributesAsNewer(M.ManifestElement, d, attrs);
    case UsesSdkTag => AttributesAsNewer(M.SdkElement, d, attrs);
    case ApplicationTag => AttributesAsNewer(M.ApplicationElement(strings), d, attrs);
    case UsesPermissionTag => PermissionScanAsNewer(M.PermissionScan(needed, [], false), attrs, code, settings);
    case ComponentTag => ExportedAsNewer(name, attrs, d.minSdk, code, settings.minCriticality);
    case OtherTag =>
  }

  lemma {:induction false} LoadEventsAsNewer(s: M.LoadState, events: seq<Event>, code: string, strings: map<string, string>,
    settings: M.Settings)
    requires ReadableEvents(events, strings)
    ensures LoadEvents(s, events, code, strings, settings) == M.LoadEvents(s, AsEvents(events), code, strings, settings)
    decreases |events|
  {
    if events != [] {
      var n := |events| - 1;
      LoadEventsAsNewer(s, events[..n], code, strings, settings);
      assert AsEvents(events)[..n] == AsEvents(events[..n]);
      var before := LoadEvents(s, events[..n], code, strings, settings);
      match events[n]
      case Start(name, attrs) =>
        ElementStartAsNewer(before.data, before.needed, M.ElementOf(name), name, attrs, code, strings, settings);
      case _ =>
    }
  }

  /**
    * On a document whose values the older handlers can all read, the older `load` builds
    * what the newer one builds from the same events.
    */
  lemma LoadedAsNewer(events: seq<Event>, code: string, strings: map<string, string>, settings: M.Settings)
    requires ReadableEvents(events, strings)
    ensures Loaded(events, code, strings, settings) == M.Loaded(AsEvents(events), code, strings, settings)
  {
    var es := AsEvents(events);
    M.FirstEofAt(es, []);
    assert es + [] == es;
    WholeSlice(es);
    LoadEventsAsNewer(M.LoadState(M.DefaultData, {}, []), events, code, strings, settings);
  }

  /**
    * One attribute of `<manifest>`, once its key is known: the fields change as
    * `ManifestAttribute` says, and `ok` is false where the loop breaks.
    */
  method ManifestKeyed(m: L.Manifest, k: M.Key, value: string) returns (ok: bool)
    modifies m`package, m`versionNumber, m`versionStr, m`installLocation
    ensures ok == ManifestAttribute(old(m.Data()), k, value).Some?
    ensures m.Data() == if ok then ManifestAttribute(old(m.Data()), k, value).value else old(m.Data())
  {
    ok := true;
    match k {
      case PackageKey => m.SetPackage(value);
      case VersionCodeKey =>
        match Text.ParseU32(value) {
          case Some(n) => m.SetVersionNumber(n);
          case None => ok := false;
        }
      case VersionNameKey => m.SetVersionStr(value);
      case InstallLocationKey =>
        match InstallLocationFromStr(value) {
          case Ok(l) => m.SetInstallLocation(l);
          case Err(_) => ok := false;
        }
      case _ =>
    }
  }

  /** One attribute of `<manifest>`, as `HandleAttribute` says. */
  method ManifestStep(m: L.Manifest, a: OldAttribute) returns (ok: bool)
    modifies m`package, m`versionNumber, m`versionStr, m`installLocation
    ensures ok == HandleAttribute(M.ManifestElement, old(m.Data()), a).Some?
    ensures m.Data() == if ok then HandleAttribute(M.ManifestElement, old(m.Data()), a).value else old(m.Data())
  {
    ok := ManifestKeyed(m, M.KeyOf(a.localName), a.value);
  }

  /** `parse_manifest_attributes`: package, version code and name, install location, until a `break`. */
  method ParseManifestAttributes(m: L.Manifest, attrs: seq<OldAttribute>)
    modifies m`package, m`versionNumber, m`versionStr, m`installLocation
    ensures m.Data() == AttributesAfter(M.ManifestElement, old(m.Data()), attrs).0
  {
    ghost var d0 := m.Data();
    for i := 0 to |attrs|
      invariant AttributesAfter(M.ManifestElement, d0, attrs[..i]) == (m.Data(), false)
    {
      SlicePrefix(attrs, i + 1, i);
      var ok := ManifestStep(m, attrs[i]);
      if !ok {
        BreakAt(M.ManifestElement, d0, attrs, i);
        return;
      }
    }
    WholeSlice(attrs);
  }

  /** One attribute of `<uses-sdk>`, once its key is known, as `SdkAttribute` says. */
  method SdkKeyed(m: L.Manifest, k: M.Key, value: string) returns (ok: bool)
    modifies m`minSdk, m`targetSdk
    ensures ok == SdkAttribute(old(m.Data()), k, value).Some?
    ensures m.Data() == if ok then SdkAttribute(old(m.Data()), k, value).value else old(m.Data())
  {
    ok := true;
    match k {
      case MinSdkVersionKey =>
        match Text.ParseU32(value) {
          case Some(n) => m.SetMinSdk(n);
          case None => ok := false;
        }
      case TargetSdkVersionKey =>
        match Text.ParseU32(value) {
          case Some(n) => m.SetTargetSdk(n);
          case None => ok := false;
        }
      case _ =>
    }
  }

  /** One attribute of `<uses-sdk>`, as `HandleAttribute` says. */
  method SdkStep(m: L.Manifest, a: OldAttribute) returns (ok: bool)
    modifies m`minSdk, m`targetSdk
    ensures ok == HandleAttribute(M.SdkElement, old(m.Data()), a).Some?
    ensures m.Data() == if ok then HandleAttribute(M.SdkElement, old(m.Data()), a).value else old(m.Data())
  {
    ok := SdkKeyed(m, M.KeyOf(a.localName), a.value);
  }

  /** `parse_sdk_attributes`: the minimum and target SDK levels, until a `break`. */
  method ParseSdkAttributes(m: L.Manifest, attrs: seq<OldAttribute>)
    modifies m`minSdk, m`targetSdk
    ensures m.Data() == AttributesAfter(M.SdkElement, old(m.Data()), attrs).0
  {
    ghost var d0 := m.Data();
    for i := 0 to |attrs|
      invariant AttributesAfter(M.SdkElement, d0, attrs[..i]) == (m.Data(), false)
    {
      SlicePrefix(attrs, i + 1, i);
      var ok := SdkStep(m, attrs[i]);
      if !ok {
        BreakAt(M.SdkElement, d0, attrs, i);
        return;
      }
    }
    WholeSlice(attrs);
  }

  /** A flag of `<application>`: raised by `"true"`, kept by `"false"`, the `break` otherwise. */
  method ApplicationFlag(m: L.Manifest, k: M.Key, value: string) returns (ok: bool)
    requires M.IsFlagKey(k)
    modifies m`debug, m`allowsBackup, m`hasCode, m`largeHeap
    ensures ok == (Text.ParseBool(value).Some?)
    ensures m.Data() == if ok && value == "true" then old(m.Data()).(
      debug := old(m.debug) || k == M.DebuggableKey, allowsBackup := old(m.allowsBackup) || k == M.AllowBackupKey,
      hasCode := old(m.hasCode) || k == M.HasCodeKey, largeHeap := old(m.largeHeap) || k == M.LargeHeapKey)
      else old(m.Data())
  {
    match Text.ParseBool(value) {
      case None => ok := false;
      case Some(on) =>
        ok := true;
        if on {
          match k {
            case DebuggableKey => m.SetDebug();
            case AllowBackupKey => m.SetAllowsBackup();
            case HasCodeKey => m.SetHasCode();
            case LargeHeapKey => m.SetLargeHeap();
          }
        }
    }
  }

  /** One attribute of `<application>`, once its key is known, as `ApplicationAttribute` says. */
  method ApplicationKeyed(m: L.Manifest, k: M.Key, value: string, strings: map<string, string>) returns (ok: bool)
    modifies m`debug, m`allowsBackup, m`description, m`hasCode, m`largeHeap, m`appLabel
    ensures ok == ApplicationAttribute(old(m.Data()), k, value, strings).Some?
    ensures m.Data() == if ok then ApplicationAttribute(old(m.Data()), k, value, strings).value else old(m.Data())
  {
    ghost var d0 := m.Data();
    ok := true;
    if M.IsFlagKey(k) {
      ok := ApplicationFlag(m, k, value);
      FlagAttribute(d0, k, value, strings);
    } else if k == M.DescriptionKey {
      m.SetDescription(value);
      assert ApplicationAttribute(d0, k, value, strings) == Some(d0.(description := value));
    } else if k == M.LabelKey {
      ok := ApplicationLabel(m, value, strings);
    } else {
      assert ApplicationAttribute(d0, k, value, strings) == Some(d0);
    }
  }

  /** An application flag, as `ApplicationAttribute` gives it: a boolean, raised only by `"true"`. */
  lemma FlagAttribute(d: M.ManifestData, k: M.Key, value: string, strings: map<string, string>)
    requires M.IsFlagKey(k)
    ensures ApplicationAttribute(d, k, value, strings) ==
      if Text.ParseBool(value).None? then None
      else if value == "true" then Some(d.(debug := d.debug || k == M.DebuggableKey, allowsBackup := d.allowsBackup || k == M.AllowBackupKey,
        hasCode := d.hasCode || k == M.HasCodeKey, largeHeap := d.largeHeap || k == M.LargeHeapKey))
      else Some(d)
  {
  }

  /** The label of `<application>`: a `@string/` name that does not resolve is the `break`. */
  method ApplicationLabel(m: L.Manifest, value: string, strings: map<string, string>) returns (ok: bool)
    modifies m`appLabel
    ensures ok == ApplicationAttribute(old(m.Data()), M.LabelKey, value, strings).Some?
    ensures m.Data() == if ok then ApplicationAttribute(old(m.Data()), M.LabelKey, value, strings).value else old(m.Data())
  {
    ok := true;
    if Text.StartsWith(value, "@string/") {
      if value[8..] in strings {
        m.SetLabel(strings[value[8..]]);
      } else {
        ok := false;
      }
    } else {
      m.SetLabel(value);
    }
  }

  /** One attribute of `<application>`, as `HandleAttribute` says. */
  method ApplicationStep(m: L.Manifest, a: OldAttribute, strings: map<string, string>) returns (ok: bool)
    modifies m`debug, m`allowsBackup, m`description, m`hasCode, m`largeHeap, m`appLabel
    ensures ok == HandleAttribute(M.ApplicationElement(strings), old(m.Data()), a).Some?
    ensures m.Data() == if ok then HandleAttribute(M.ApplicationElement(strings), old(m.Data()), a).value else old(m.Data())
  {
    ok := ApplicationKeyed(m, M.KeyOf(a.localName), a.value, strings);
  }

  /** `parse_application_attributes`: flags, description and label, until a `break`. */
  method ParseApplicationAttributes(m: L.Manifest, attrs: seq<OldAttribute>, strings: map<string, string>)
    modifies m`debug, m`allowsBackup, m`description, m`hasCode, m`largeHeap, m`appLabel
    ensures m.Data() == AttributesAfter(M.ApplicationElement(strings), old(m.Data()), attrs).0
  {
    ghost var d0 := m.Data();
    var i := 0;
    while i < |attrs|
      invariant 0 <= i <= |attrs|
      invariant AttributesAfter(M.ApplicationElement(strings), d0, attrs[..i]) == (m.Data(), false)
    {
      SlicePrefix(attrs, i + 1, i);
      var ok := ApplicationStep(m, attrs[i], strings);
      if !ok {
        BreakAt(M.ApplicationElement(strings), d0, attrs, i);
        return;
      }
      i := i + 1;
    }
    WholeSlice(attrs);
  }

  /** One more attribute of the permission loop, while it has not stopped. */
  lemma PermissionScanNext(s: M.PermissionScan, attrs: seq<OldAttribute>, i: nat, code: string, settings: M.Settings)
    requires i < |attrs| && !PermissionScanOf(s, attrs[..i], code, settings).stopped
    ensures PermissionScanOf(s, attrs[..i + 1], code, settings) ==
      PermissionAttribute(PermissionScanOf(s, attrs[..i], code, settings), attrs[i], code, settings)
  {
    SlicePrefix(attrs, i + 1, i);
  }

  /**
    * One attribute of `<uses-permission>`, as `PermissionAttribute` says: the flags and
    * the findings added since `b0` keep matching the scan.
    */
  method PermissionStep(m: L.Manifest, a: OldAttribute, ghost s: M.PermissionScan, ghost b0: map<Criticality, set<Vulnerability>>,
    settings: M.Settings, results: Results) returns (stopped: bool)
    requires results.Valid() && !s.stopped && m.permissions.needed == s.needed && Extended(b0, results.buckets, s.found)
    modifies m.permissions, results
    ensures results.Valid() && results.Info() == old(results.Info())
    ensures var r := PermissionAttribute(s, a, m.code, settings);
      stopped == r.stopped && m.permissions.needed == r.needed && Extended(b0, results.buckets, r.found)
  {
    stopped := false;
    if M.KeyOf(a.localName) == M.NameKey {
      ghost var b1 := results.buckets;
      stopped := m.PermissionNamed(a.value, true, settings, results);
      if stopped {
        ExtendedTrans(b0, b1, results.buckets, s.found, M.UnknownPermissionFindings(a.value, m.code, settings));
      }
    }
  }

  /**
    * `parse_permission_attributes`: the `name` attributes in order until an unknown one;
    * the flags and findings end as `PermissionScanOf` says.
    */
  method ParsePermissionAttributes(m: L.Manifest, attrs: seq<OldAttribute>, settings: M.Settings, results: Results)
    requires results.Valid()
    modifies m.permissions, results
    ensures results.Valid() && results.Info() == old(results.Info())
    ensures var s := PermissionScanOf(M.PermissionScan(old(m.permissions.needed), [], false), attrs, m.code, settings);
      m.permissions.needed == s.needed && Extended(old(results.buckets), results.buckets, s.found)
  {
    var code := m.code;
    ghost var s0 := M.PermissionScan(m.permissions.needed, [], false);
    ghost var b0 := results.buckets;
    ExtendedNothing(b0);
    var i := 0;
    while i < |attrs|
      invariant 0 <= i <= |attrs|
      invariant var s := PermissionScanOf(s0, attrs[..i], code, settings);
        !s.stopped && m.permissions.needed == s.needed && Extended(b0, results.buckets, s.found)
      invariant results.Valid() && results.Info() == old(results.Info())
    {
      PermissionScanNext(s0, attrs, i, code, settings);
      var stopped := PermissionStep(m, attrs[i], PermissionScanOf(s0, attrs[..i], code, settings), b0, settings, results);
      if stopped {
        PermissionStopsAt(s0, attrs, i + 1, code, settings);
        return;
      }
      i := i + 1;
    }
    WholeSlice(attrs);
  }

  /**
    * `check_exported_attributes`: the last boolean `exported` and the last `name`, then
    * the warning `ExportedFindings` says, if any.
    */
  method CheckExportedAttributes(m: L.Manifest, tag: string, attrs: seq<OldAttribute>, settings: M.Settings, results: Results)
    requires results.Valid()
    modifies results
    ensures results.Valid() && results.Info() == old(results.Info())
    ensures Extended(old(results.buckets), results.buckets, ExportedFindings(tag, attrs, m.minSdk, m.code, settings.minCriticality))
  {
    var scan := ScanExportedAttributes(attrs);
    ghost var b := results.buckets;
    if M.ExportedWarning(tag, scan.exported, m.minSdk) && Le(settings.minCriticality, Warning) {
      var v := M.ExportedFinding(tag, scan.name, m.code);
      results.AddVulnerability(v);
      ExtendedOne(b, results.buckets, v);
    } else {
      ExtendedNothing(b);
    }
  }

  /** The loop of `check_exported_attributes`: the last boolean `exported` and the last `name`. */
  method ScanExportedAttributes(attrs: seq<OldAttribute>) returns (scan: M.ExportedScan)
    ensures scan == ExportedScanOf(attrs)
  {
    var exported: Option<bool> := None;
    var name := "";
    for i := 0 to |attrs|
      invariant ExportedScanOf(attrs[..i]) == M.ExportedScan(exported, name)
    {
      ExportedScanNext(attrs, i);
      match M.KeyOf(attrs[i].localName) {
        case ExportedKey =>
          match Text.ParseBool(attrs[i].value) {
            case Some(found) => exported := Some(found);
            case None =>
          }
        case NameKey => name := attrs[i].value;
        case _ =>
      }
    }
    WholeSlice(attrs);
    return M.ExportedScan(exported, name);
  }

  /** The scan over one more attribute. */
  lemma ExportedScanNext(attrs: seq<OldAttribute>, i: nat)
    requires i < |attrs|
    ensures ExportedScanOf(attrs[..i + 1])
      == M.ExportedKeyed(ExportedScanOf(attrs[..i]), M.KeyOf(attrs[i].localName), attrs[i].value, true)
  {
    SlicePrefix(attrs, i + 1, i);
  }

  /** A start tag handed to its element's handler, as `ElementStart` says. */
  method StartElement(m: L.Manifest, element: M.Element, name: string, attrs: seq<OldAttribute>,
    strings: map<string, string>, settings: M.Settings, results: Results)
    requires results.Valid()
    modifies m, m.permissions, results
    ensures m.permissions == old(m.permissions) && m.code == old(m.code)
    ensures results.Valid() && results.Info() == old(results.Info())
    ensures var r := ElementStart(old(m.Data()), old(m.permissions.needed), element, name, attrs, m.code, strings, settings);
      m.Data() == r.data && m.permissions.needed == r.needed && Extended(old(results.buckets), results.buckets, r.found)
  {
    ghost var d := m.Data();
    ghost var needed := m.permissions.needed;
    ghost var r := ElementStart(d, needed, element, name, attrs, m.code, strings, settings);
    match element {
      case ManifestTag =>
        ParseManifestAttributes(m, attrs);
        ExtendedNothing(results.buckets);
      case UsesSdkTag =>
        ParseSdkAttributes(m, attrs);
        ExtendedNothing(results.buckets);
      case ApplicationTag =>
        ParseApplicationAttributes(m, attrs, strings);
        ExtendedNothing(results.buckets);
      case UsesPermissionTag =>
        ParsePermissionAttributes(m, attrs, settings, results);
      case ComponentTag =>
        CheckExportedAttributes(m, name, attrs, settings, results);
      case OtherTag =>
        ExtendedNothing(results.buckets);
    }
  }

  /**
    * `load`: without the file there is no manifest; otherwise every event the reader
    * yields is walked, and the manifest, its permission flags and the findings added on
    * the way are what `Loaded` says.
    */
  method Load(fileText: Option<string>, events: seq<Event>, strings: map<string, string>, settings: M.Settings,
    results: Results) returns (r: Result<L.Manifest, L.LoadError>)
    requires results.Valid()
    modifies results
    ensures results.Valid() && results.Info() == old(results.Info())
    ensures fileText.None? ==> r == Err(L.ManifestUnreadable) && results.buckets == old(results.buckets)
    ensures fileText.Some? ==> r.Ok? && fresh(r.value) && fresh(r.value.permissions) && r.value.code == fileText.value
    ensures fileText.Some? && r.Ok? ==>
      var s := Loaded(events, fileText.value, strings, settings);
      r.value.Data() == s.data && r.value.permissions.needed == s.needed
      && Extended(old(results.buckets), results.buckets, s.found)
  {
    if fileText.None? {
      return Err(L.ManifestUnreadable);
    }
    var code := fileText.value;
    var manifest := new L.Manifest(code);
    ghost var b0 := results.buckets;
    ghost var init := M.LoadState(M.DefaultData, {}, []);
    ExtendedNothing(b0);
    for i := 0 to |events|
      invariant fresh(manifest) && fresh(manifest.permissions) && manifest.code == code
      invariant results.Valid() && results.Info() == old(results.Info())
      invariant var s := LoadEvents(init, events[..i], code, strings, settings);
        manifest.Data() == s.data && manifest.permissions.needed == s.needed && Extended(b0, results.buckets, s.found)
    {
      ghost var s := LoadEvents(init, events[..i], code, strings, settings);
      ghost var b1 := results.buckets;
      SlicePrefix(events, i + 1, i);
      match events[i] {
        case Start(name, attrs) =>
          StartElement(manifest, M.ElementOf(name), name, attrs, strings, settings, results);
          ExtendedTrans(b0, b1, results.buckets, s.found,
            ElementStart(s.data, s.needed, M.ElementOf(name), name, attrs, code, strings, settings).found);
        case _ =>
      }
    }
    WholeSlice(events);
    return Ok(manifest);
  }

  /**
    * `analysis`: loads the manifest; without one there is nothing more to do. Otherwise the
    * rest is the newer `analysis`: the identity goes into the results, then the findings of
    * the flag rules and of the configured permissions the manifest asks for.
    */
  method Analysis(config: Configs.Config, package: string, fileText: Option<string>, events: seq<Event>,
    strings: map<string, string>, results: Results) returns (m: Option<L.Manifest>)
    requires results.Valid()
    modifies results
    ensures results.Valid()
    ensures fileText.None? ==> m.None? && results.Info() == old(results.Info()) && results.buckets == old(results.buckets)
    ensures fileText.Some? ==> m.Some? && fresh(m.value)
    ensures fileText.Some? && m.Some? ==>
      var settings := M.Settings(config.minCriticality, config.unknownPermission.0, config.unknownPermission.1);
      var s := Loaded(events, fileText.value, strings, settings);
      m.value.Data() == s.data && m.value.permissions.needed == s.needed
      && results.Info() == L.IdentityAfter(old(results.Info()), s.data)
      && Extended(old(results.buckets), results.buckets,
        s.found + M.AnalysisFindings(s.data, s.needed, config.permissions, M.SourceFlagTexts, fileText.value, config.minCriticality))
  {
    var settings := M.Settings(config.minCriticality, config.unknownPermission.0, config.unknownPermission.1);
    var loaded := Load(fileText, events, strings, settings, results);
    if loaded.Err? {
      return None;
    }
    var manifest := loaded.value;
    L.ReportManifest(manifest, config, M.SourceFlagTexts, results, old(results.buckets),
      Loaded(events, fileText.value, strings, settings).found);
    return Some(manifest);
  }
}
