/**
  * `Manifest`: the structure `load` fills in while it walks the parser's events, its
  * attribute handlers, and `analysis`, which loads the manifest, copies its identity into
  * the results and adds the findings of the flag and permission rules.
  *
  * Each handler and the walk itself are proved against the functions of `Manifests`
  * that describe them on values.
  */
module ManifestLoading {
  import opened Common
  import Text
  import opened Criticalities
  import opened Vulnerabilities
  import Permissions
  import opened PermissionChecklists
  import opened Manifests
  import opened ResultsStore
  import SdkNumbers
  import Configs

  /**
    * One handler step as the object sees it: on success the fields are the handler's
    * result, on an error they are as before and the error is reported.
    */
  predicate Stepped(before: ManifestData, after: ManifestData, failed: Option<AttributeError>,
    r: Result<ManifestData, AttributeError>)
  {
    match r
    case Ok(d) => failed == None && after == d
    case Err(e) => failed == Some(e) && after == before
  }

  /** Why `load` gives no manifest: the file could not be read. */
  datatype LoadError = ManifestUnreadable

  class Manifest {
    var code: string
    var package: string
    var appLabel: string
    var description: string
    var allowsBackup: bool
    var hasCode: bool
    var largeHeap: bool
    var installLocation: InstallLocation
    var permissions: PermissionChecklist
    var debug: bool
    var minSdk: U32
    var targetSdk: Option<U32>
    var versionNumber: U32
    var versionStr: string

    /** The fields the attribute handlers fill in, gathered. */
    function Data(): ManifestData
      reads this
    {
      ManifestData(package, appLabel, description, allowsBackup, hasCode, largeHeap, installLocation,
        debug, minSdk, targetSdk, versionNumber, versionStr)
    }

    /** `Manifest::default()` followed by `set_code`: nothing read yet but the text itself. */
    constructor (code: string)
      ensures this.code == code && Data() == DefaultData
      ensures fresh(permissions) && permissions.needed == {}
    {
      this.code := code;
      package, appLabel, description, versionStr := "", "", "", "";
      allowsBackup, hasCode, largeHeap, debug := false, false, false, false;
      installLocation := InternalOnly;
      minSdk, targetSdk, versionNumber := 0, None, 0;
      permissions := new PermissionChecklist();
    }

    method SetPackage(package: string)
      modifies this`package
      ensures this.package == package
    {
      this.package := package;
    }

    method SetVersionNumber(versionNumber: U32)
      modifies this`versionNumber
      ensures this.versionNumber == versionNumber
    {
      this.versionNumber := versionNumber;
    }

    method SetVersionStr(versionStr: string)
      modifies this`versionStr
      ensures this.versionStr == versionStr
    {
      this.versionStr := versionStr;
    }

    method SetLabel(appLabel: string)
      modifies this`appLabel
      ensures this.appLabel == appLabel
    {
      this.appLabel := appLabel;
    }

    method SetDescription(description: string)
      modifies this`description
      ensures this.description == description
    {
      this.description := description;
    }

    method SetMinSdk(minSdk: U32)
      modifies this`minSdk
      ensures this.minSdk == minSdk
    {
      this.minSdk := minSdk;
    }

    /** `set_target_sdk`: from now on a target SDK is present. */
    method SetTargetSdk(targetSdk: U32)
      modifies this`targetSdk
      ensures this.targetSdk == Some(targetSdk)
    {
      this.targetSdk := Some(targetSdk);
    }

    method SetInstallLocation(installLocation: InstallLocation)
      modifies this`installLocation
      ensures this.installLocation == installLocation
    {
      this.installLocation := installLocation;
    }

    /** The four flag setters only ever raise their flag. */
    method SetHasCode()
      modifies this`hasCode
      ensures hasCode
    {
      hasCode := true;
    }

    method SetAllowsBackup()
      modifies this`allowsBackup
      ensures allowsBackup
    {
      allowsBackup := true;
    }

    method SetLargeHeap()
      modifies this`largeHeap
      ensures largeHeap
    {
      largeHeap := true;
    }

    method SetDebug()
      modifies this`debug
      ensures debug
    {
      debug := true;
    }

    /**
      * One attribute of `<manifest>`, once its key is known: the fields change as
      * `ManifestAttribute` says, or stay as they were when the value cannot be read.
      */
    method ManifestKeyed(k: Key, value: string, utf8: bool) returns (failed: Option<AttributeError>)
      modifies this`package, this`versionNumber, this`versionStr, this`installLocation
      ensures Stepped(old(Data()), Data(), failed, ManifestAttribute(old(Data()), k, value, utf8))
    {
      failed := None;
      match k {
        case PackageKey =>
          match TextValue(value, utf8) {
            case Ok(s) => SetPackage(s);
            case Err(e) => failed := Some(e);
          }
        case VersionCodeKey =>
          match NumberValue(value, utf8) {
            case Ok(n) => SetVersionNumber(n);
            case Err(e) => failed := Some(e);
          }
        case VersionNameKey =>
          match TextValue(value, utf8) {
            case Ok(s) => SetVersionStr(s);
            case Err(e) => failed := Some(e);
          }
        case InstallLocationKey =>
          match InstallLocationTryFrom(value, utf8) {
            case Ok(l) => SetInstallLocation(l);
            case Err(e) => failed := Some(e);
          }
        case _ =>
      }
    }

    /** One attribute of `<manifest>`, as `HandleAttribute` says. */
    method ManifestStep(a: Attribute) returns (failed: Option<AttributeError>)
      modifies this`package, this`versionNumber, this`versionStr, this`installLocation
      ensures Stepped(old(Data()), Data(), failed, HandleAttribute(ManifestElement, old(Data()), a))
    {
      ghost var d0 := Data();
      match a {
        case Malformed => failed := Some(MalformedAttribute);
        case Attr(key, value, utf8) =>
          failed := ManifestKeyed(AttributeKey(key), value, utf8);
          ManifestHandled(d0, key, value, utf8);
      }
    }

    /**
      * `parse_manifest_attributes`: each attribute in order, until the first one that is
      * malformed or whose value cannot be read; the fields end as `AttributesAfter` says.
      */
    method ParseManifestAttributes(attrs: seq<Attribute>) returns (err: Option<AttributeError>)
      modifies this`package, this`versionNumber, this`versionStr, this`installLocation
      ensures (Data(), err) == AttributesAfter(ManifestElement, old(Data()), attrs)
    {
      ghost var d0 := Data();
      var i := 0;
      while i < |attrs|
        invariant 0 <= i <= |attrs|
        invariant (Data(), None) == AttributesAfter(ManifestElement, d0, attrs[..i])
      {
        SlicePrefix(attrs, i + 1, i);
        var failed := ManifestStep(attrs[i]);
        if failed.Some? {
          ErrorAt(ManifestElement, d0, attrs, i + 1);
          return failed;
        }
        i := i + 1;
      }
      WholeSlice(attrs);
      return None;
    }

    /** One attribute of `<uses-sdk>`, once its key is known, as `SdkAttribute` says. */
    method SdkKeyed(k: Key, value: string, utf8: bool) returns (failed: Option<AttributeError>)
      modifies this`minSdk, this`targetSdk
      ensures Stepped(old(Data()), Data(), failed, SdkAttribute(old(Data()), k, value, utf8))
    {
      failed := None;
      match k {
        case MinSdkVersionKey =>
          match NumberValue(value, utf8) {
            case Ok(n) => SetMinSdk(n);
            case Err(e) => failed := Some(e);
          }
        case TargetSdkVersionKey =>
          match NumberValue(value, utf8) {
            case Ok(n) => SetTargetSdk(n);
            case Err(e) => failed := Some(e);
          }
        case _ =>
      }
    }

    /** One attribute of `<uses-sdk>`, as `HandleAttribute` says. */
    method SdkStep(a: Attribute) returns (failed: Option<AttributeError>)
      modifies this`minSdk, this`targetSdk
      ensures Stepped(old(Data()), Data(), failed, HandleAttribute(SdkElement, old(Data()), a))
    {
      ghost var d0 := Data();
      match a {
        case Malformed => failed := Some(MalformedAttribute);
        case Attr(key, value, utf8) =>
          failed := SdkKeyed(AttributeKey(key), value, utf8);
          SdkHandled(d0, key, value, utf8);
      }
    }

    /** `parse_sdk_attributes`: the SDK levels, until the first attribute that fails. */
    method ParseSdkAttributes(attrs: seq<Attribute>) returns (err: Option<AttributeError>)
      modifies this`minSdk, this`targetSdk
      ensures (Data(), err) == AttributesAfter(SdkElement, old(Data()), attrs)
    {
      ghost var d0 := Data();
      var i := 0;
      while i < |attrs|
        invariant 0 <= i <= |attrs|
        invariant (Data(), None) == AttributesAfter(SdkElement, d0, attrs[..i])
      {
        SlicePrefix(attrs, i + 1, i);
        var failed := SdkStep(attrs[i]);
        if failed.Some? {
          ErrorAt(SdkElement, d0, attrs, i + 1);
          return failed;
        }
        i := i + 1;
      }
      WholeSlice(attrs);
      return None;
    }

    /**
      * One attribute of `<application>`, once its key is known, as `ApplicationAttribute`
      * says: a flag is raised only by `"true"`, and the label is looked up in `strings`.
      */
    method ApplicationKeyed(k: Key, value: string, utf8: bool, strings: map<string, string>) returns (failed: Option<AttributeError>)
      modifies this`debug, this`allowsBackup, this`description, this`hasCode, this`largeHeap, this`appLabel
      ensures Stepped(old(Data()), Data(), failed, ApplicationAttribute(old(Data()), k, value, utf8, strings))
    {
      failed := None;
      match k {
        case DebuggableKey =>
          match FlagValue(value, utf8) {
            case Ok(on) => if on { SetDebug(); }
            case Err(e) => failed := Some(e);
          }
        case AllowBackupKey =>
          match FlagValue(value, utf8) {
            case Ok(on) => if on { SetAllowsBackup(); }
            case Err(e) => failed := Some(e);
          }
        case DescriptionKey =>
          match TextValue(value, utf8) {
            case Ok(s) => SetDescription(s);
            case Err(e) => failed := Some(e);
          }
        case HasCodeKey =>
          match FlagValue(value, utf8) {
            case Ok(on) => if on { SetHasCode(); }
            case Err(e) => failed := Some(e);
          }
        case LargeHeapKey =>
          match FlagValue(value, utf8) {
            case Ok(on) => if on { SetLargeHeap(); }
            case Err(e) => failed := Some(e);
          }
        case LabelKey =>
          if Text.StartsWith(value, "@string/") {
            if value[8..] in strings {
              SetLabel(strings[value[8..]]);
            }
          } else if utf8 {
            SetLabel(value);
          }
        case _ =>
      }
    }

    /** One attribute of `<application>`, as `HandleAttribute` says. */
    method ApplicationStep(a: Attribute, strings: map<string, string>) returns (failed: Option<AttributeError>)
      modifies this`debug, this`allowsBackup, this`description, this`hasCode, this`largeHeap, this`appLabel
      ensures Stepped(old(Data()), Data(), failed, HandleAttribute(ApplicationElement(strings), old(Data()), a))
    {
      ghost var d0 := Data();
      match a {
        case Malformed => failed := Some(MalformedAttribute);
        case Attr(key, value, utf8) =>
          failed := ApplicationKeyed(AttributeKey(key), value, utf8, strings);
          ApplicationHandled(d0, key, value, utf8, strings);
      }
    }

    /**
      * `parse_application_attributes`: flags, description and label, until the first
      * attribute that fails; `strings` stands for the application's string resources.
      */
    method ParseApplicationAttributes(attrs: seq<Attribute>, strings: map<string, string>) returns (err: Option<AttributeError>)
      modifies this`debug, this`allowsBackup, this`description, this`hasCode, this`largeHeap, this`appLabel
      ensures (Data(), err) == AttributesAfter(ApplicationElement(strings), old(Data()), attrs)
    {
      ghost var d0 := Data();
      var i := 0;
      while i < |attrs|
        invariant 0 <= i <= |attrs|
        invariant (Data(), None) == AttributesAfter(ApplicationElement(strings), d0, attrs[..i])
      {
        SlicePrefix(attrs, i + 1, i);
        var failed := ApplicationStep(attrs[i], strings);
        if failed.Some? {
          ErrorAt(ApplicationElement(strings), d0, attrs, i + 1);
          return failed;
        }
        i := i + 1;
      }
      WholeSlice(attrs);
      return None;
    }

    /**
      * The `name` of a `<uses-permission>`: a known permission raises its flag; an unknown
      * one that is UTF-8 is reported when its configured criticality is strictly above the
      * minimum; either kind of unknown name ends the element.
      */
    method PermissionNamed(value: string, utf8: bool, settings: Settings, results: Results) returns (stopped: bool)
      requires results.Valid()
      modifies permissions, results
      ensures results.Valid() && results.Info() == old(results.Info())
      ensures match KnownPermission(value, utf8)
        case Some(p) =>
          !stopped && permissions.needed == old(permissions.needed) + {p} && results.buckets == old(results.buckets)
        case None =>
          stopped && permissions.needed == old(permissions.needed)
          && Extended(old(results.buckets), results.buckets,
            if utf8 then UnknownPermissionFindings(value, code, settings) else [])
    {
      match KnownPermission(value, utf8) {
        case Some(p) =>
          permissions.SetNeedsPermission(p);
          stopped := false;
        case None =>
          ghost var b := results.buckets;
          if utf8 && Lt(settings.minCriticality, settings.unknownCriticality) {
            var v := ManifestFinding(settings.unknownCriticality, "Unknown permission", settings.unknownDescription, code, value);
            results.AddVulnerability(v);
            ExtendedOne(b, results.buckets, v);
          } else {
            ExtendedNothing(b);
          }
          stopped := true;
      }
    }

    /**
      * `parse_permission_attributes`: the `name` attributes in order, until an unknown name
      * or a malformed attribute; the flags and findings end as `PermissionScanOf` says.
      */
    method ParsePermissionAttributes(attrs: seq<Attribute>, settings: Settings, results: Results) returns (err: Option<AttributeError>)
      requires results.Valid()
      modifies permissions, results
      ensures results.Valid() && results.Info() == old(results.Info())
      ensures var (s, e) := PermissionScanOf(PermissionScan(old(permissions.needed), [], false), attrs, code, settings);
        err == e && permissions.needed == s.needed && Extended(old(results.buckets), results.buckets, s.found)
    {
      ghost var s0 := PermissionScan(permissions.needed, [], false);
      ghost var b0 := results.buckets;
      var i := 0;
      while i < |attrs|
        invariant 0 <= i <= |attrs|
        invariant var (s, e) := PermissionScanOf(s0, attrs[..i], code, settings);
          e == None && !s.stopped && permissions.needed == s.needed && Extended(b0, results.buckets, s.found)
        invariant results.Valid() && results.Info() == old(results.Info())
      {
        ghost var before := PermissionScanOf(s0, attrs[..i], code, settings).0;
        ghost var b1 := results.buckets;
        PermissionScanNext(s0, attrs, i, code, settings);
        SplitAt(attrs, i + 1);
        match attrs[i] {
          case Malformed =>
            PermissionScanAfterStop(s0, attrs[..i + 1], attrs[i + 1..], code, settings);
            return Some(MalformedAttribute);
          case Attr(key, value, utf8) =>
            if AttributeKey(key) == NameKey {
              var stopped := PermissionNamed(value, utf8, settings, results);
              ghost var after := PermissionName(before, value, utf8, code, settings);
              if stopped {
                ExtendedTrans(b0, b1, results.buckets, before.found, if utf8 then UnknownPermissionFindings(value, code, settings) else []);
                PermissionScanAfterStop(s0, attrs[..i + 1], attrs[i + 1..], code, settings);
                return None;
              }
            }
        }
        i := i + 1;
      }
      WholeSlice(attrs);
      return None;
    }

    /**
      * The attribute loop of `check_exported_attributes`: the last `exported` that parses
      * as a boolean and the last `name` that is UTF-8, or the error of the first malformed
      * attribute.
      */
    static method ScanExportedAttributes(attrs: seq<Attribute>) returns (r: Result<ExportedScan, AttributeError>)
      ensures r == ExportedScanOf(attrs)
    {
      var exported: Option<bool> := None;
      var name := "";
      var i := 0;
      while i < |attrs|
        invariant 0 <= i <= |attrs|
        invariant ExportedScanOf(attrs[..i]) == Ok(ExportedScan(exported, name))
      {
        ExportedScanNext(attrs, i);
        match attrs[i] {
          case Malformed =>
            ExportedScanStopsAtError(attrs[..i + 1], attrs[i + 1..]);
            SplitAt(attrs, i + 1);
            return Err(MalformedAttribute);
          case Attr(key, value, utf8) =>
            match AttributeKey(key) {
              case ExportedKey =>
                if utf8 {
                  match Text.ParseBool(value) {
                    case Some(b) => exported := Some(b);
                    case None =>
                  }
                }
              case NameKey =>
                if utf8 {
                  name := value;
                }
              case _ =>
            }
        }
        i := i + 1;
      }
      WholeSlice(attrs);
      return Ok(ExportedScan(exported, name));
    }

    /**
      * `check_exported_attributes`: reports the component as `ExportedFindings` says; a
      * malformed attribute ends it with nothing reported.
      */
    method CheckExportedAttributes(tag: string, attrs: seq<Attribute>, settings: Settings, results: Results) returns (err: Option<AttributeError>)
      requires results.Valid()
      modifies results
      ensures results.Valid() && results.Info() == old(results.Info())
      ensures match ExportedFindings(tag, attrs, minSdk, code, settings.minCriticality)
        case Err(e) => err == Some(e) && results.buckets == old(results.buckets)
        case Ok(fs) => err == None && Extended(old(results.buckets), results.buckets, fs)
    {
      var scan := ScanExportedAttributes(attrs);
      match scan {
        case Err(e) =>
          return Some(e);
        case Ok(s) =>
          ghost var b := results.buckets;
          var exported, name := s.exported, s.name;
          if ExportedWarning(tag, exported, minSdk) && Le(settings.minCriticality, Warning) {
            var v := ExportedFinding(tag, name, code);
            results.AddVulnerability(v);
            ExtendedOne(b, results.buckets, v);
          } else {
            ExtendedNothing(b);
          }
          return None;
      }
    }

    /**
      * A start tag handed to its element's handler, as `ElementStart` says; the handler's
      * error is returned for `load` to warn about.
      */
    method StartElement(element: Element, name: string, attrs: seq<Attribute>, strings: map<string, string>, settings: Settings,
      results: Results) returns (err: Option<AttributeError>)
      requires results.Valid()
      modifies this, permissions, results
      ensures permissions == old(permissions) && code == old(code)
      ensures results.Valid() && results.Info() == old(results.Info())
      ensures var r := ElementStart(old(Data()), old(permissions.needed), element, name, attrs, code, strings, settings);
        Data() == r.data && permissions.needed == r.needed && Extended(old(results.buckets), results.buckets, r.found)
    {
      ghost var d := Data();
      ghost var needed := permissions.needed;
      ghost var r := ElementStart(d, needed, element, name, attrs, code, strings, settings);
      match element {
        case ManifestTag =>
          err := ParseManifestAttributes(attrs);
          assert r == LoadState(AttributesAfter(ManifestElement, d, attrs).0, needed, []);
          ExtendedNothing(results.buckets);
        case UsesSdkTag =>
          err := ParseSdkAttributes(attrs);
          assert r == LoadState(AttributesAfter(SdkElement, d, attrs).0, needed, []);
          ExtendedNothing(results.buckets);
        case ApplicationTag =>
          err := ParseApplicationAttributes(attrs, strings);
          assert r == LoadState(AttributesAfter(ApplicationElement(strings), d, attrs).0, needed, []);
          ExtendedNothing(results.buckets);
        case UsesPermissionTag =>
          ghost var p := PermissionScanOf(PermissionScan(needed, [], false), attrs, code, settings).0;
          assert r == LoadState(d, p.needed, p.found);
          err := ParsePermissionAttributes(attrs, settings, results);
        case ComponentTag =>
          assert r.data == d && r.needed == needed;
          err := CheckExportedAttributes(name, attrs, settings, results);
        case OtherTag =>
          err := None;
          assert r == LoadState(d, needed, []);
          ExtendedNothing(results.buckets);
      }
    }

    /**
      * `load`: without the file there is no manifest; otherwise the events are walked up to
      * the end of the document and the manifest, its permission flags and the findings added
      * on the way are what `Loaded` says.
      */
    static method Load(fileText: Option<string>, events: seq<XmlEvent>, strings: map<string, string>, settings: Settings,
      results: Results) returns (r: Result<Manifest, LoadError>)
      requires results.Valid()
      modifies results
      ensures results.Valid() && results.Info() == old(results.Info())
      ensures fileText.None? ==> r == Err(ManifestUnreadable) && results.buckets == old(results.buckets)
      ensures fileText.Some? ==> r.Ok? && fresh(r.value) && fresh(r.value.permissions) && r.value.code == fileText.value
      ensures fileText.Some? && r.Ok? ==>
        var s := Loaded(events, fileText.value, strings, settings);
        r.value.Data() == s.data && r.value.permissions.needed == s.needed
        && Extended(old(results.buckets), results.buckets, s.found)
    {
      if fileText.None? {
        return Err(ManifestUnreadable);
      }
      var code := fileText.value;
      var manifest := new Manifest(code);
      ghost var b0 := results.buckets;
      ghost var init := LoadState(DefaultData, {}, []);
      ExtendedNothing(b0);
      var i := 0;
      while i < |events|
        invariant 0 <= i <= |events| && i <= FirstEof(events)
        invariant fresh(manifest) && fresh(manifest.permissions) && manifest.code == code
        invariant results.Valid() && results.Info() == old(results.Info())
        invariant var s := LoadEvents(init, events[..i], code, strings, settings);
          manifest.Data() == s.data && manifest.permissions.needed == s.needed && Extended(b0, results.buckets, s.found)
      {
        if events[i].Eof? {
          break;
        }
        ghost var s := LoadEvents(init, events[..i], code, strings, settings);
        ghost var b1 := results.buckets;
        SlicePrefix(events, i + 1, i);
        match events[i] {
          case Start(name, attrs) =>
            var _ := manifest.StartElement(ElementOf(name), name, attrs, strings, settings, results);
            ExtendedTrans(b0, b1, results.buckets, s.found,
              ElementStart(s.data, s.needed, ElementOf(name), name, attrs, code, strings, settings).found);
          case _ =>
        }
        i := i + 1;
      }
      assert i == FirstEof(events);
      return Ok(manifest);
    }
  }

  /**
    * The identity `analysis` copies into the results from a loaded manifest: package,
    * label, description, version name and code, minimum SDK, and the target SDK when the
    * manifest gives one; the certificate is left as it was.
    */
  function IdentityAfter(info: AppInfo, d: ManifestData): AppInfo {
    info.(package := d.package, appLabel := d.appLabel, description := d.description, version := d.versionStr,
      versionNum := d.versionNumber, minSdk := SdkNumbers.FromNumber(d.minSdk),
      targetSdk := if d.targetSdk.Some? then Some(SdkNumbers.FromNumber(d.targetSdk.value)) else info.targetSdk)
  }

  /** `add_vulnerability`, with the findings added since `b0` kept track of. */
  method Report(results: Results, v: Vulnerability, ghost b0: map<Criticality, set<Vulnerability>>,
    ghost added: seq<Vulnerability>)
    requires results.Valid() && Extended(b0, results.buckets, added)
    modifies results
    ensures results.Valid() && results.Info() == old(results.Info())
    ensures Extended(b0, results.buckets, added + [v])
  {
    ghost var b := results.buckets;
    results.AddVulnerability(v);
    ExtendedOne(b, results.buckets, v);
    ExtendedTrans(b0, b, results.buckets, added, [v]);
  }

  /** The part of `analysis` that copies the manifest's identity into the results. */
  method CopyIdentity(manifest: Manifest, results: Results)
    requires results.Valid()
    modifies results
    ensures results.Valid()
    ensures results.Info() == IdentityAfter(old(results.Info()), manifest.Data())
    ensures results.buckets == old(results.buckets)
  {
    results.SetAppPackage(manifest.package);
    results.SetAppLabel(manifest.appLabel);
    results.SetAppDescription(manifest.description);
    results.SetAppVersion(manifest.versionStr);
    results.SetAppVersionNum(manifest.versionNumber);
    results.SetAppMinSdk(manifest.minSdk);
    if manifest.targetSdk.Some? {
      results.SetAppTargetSdk(manifest.targetSdk.value);
    }
    assert forall c: Criticality :: results.Bucket(c) == old(results.Bucket(c));
  }

  /** `s` with `v` appended when `on` holds. */
  function AppendIf(s: seq<Vulnerability>, on: bool, v: Vulnerability): seq<Vulnerability> {
    if on then s + [v] else s
  }

  /** Appending the findings of one selected rule is appending its finding when it is selected. */
  lemma AppendSelected(s: seq<Vulnerability>, r: FlagRule, on: bool, min: Criticality, texts: FlagTexts, code: string)
    ensures s + FlagFindings(Selected(r, on, min), texts, code) == AppendIf(s, on && Le(min, RuleCriticality(r)), FlagFinding(r, texts, code))
  {
    SelectedCases(r, on, min);
    ConcatNil(s);
    FlagFindingsOne(r, texts, code);
  }

  /** The findings of three selected rules after `found`, one rule at a time, in order. */
  lemma FlagFindingsStepwise(r1: FlagRule, on1: bool, r2: FlagRule, on2: bool, r3: FlagRule, on3: bool,
    min: Criticality, texts: FlagTexts, code: string, found: seq<Vulnerability>)
    ensures found + FlagFindings(Selected(r1, on1, min) + Selected(r2, on2, min) + Selected(r3, on3, min), texts, code) ==
      AppendIf(AppendIf(AppendIf(found,
        on1 && Le(min, RuleCriticality(r1)), FlagFinding(r1, texts, code)),
        on2 && Le(min, RuleCriticality(r2)), FlagFinding(r2, texts, code)),
        on3 && Le(min, RuleCriticality(r3)), FlagFinding(r3, texts, code))
  {
    var a, b, c := Selected(r1, on1, min), Selected(r2, on2, min), Selected(r3, on3, min);
    FlagFindingsConcat(a, b, texts, code);
    FlagFindingsConcat(a + b, c, texts, code);
    ConcatAssoc(found, FlagFindings(a, texts, code) + FlagFindings(b, texts, code), FlagFindings(c, texts, code));
    ConcatAssoc(found, FlagFindings(a, texts, code), FlagFindings(b, texts, code));
    AppendSelected(found, r1, on1, min, texts, code);
    AppendSelected(found + FlagFindings(a, texts, code), r2, on2, min, texts, code);
    AppendSelected(found + FlagFindings(a, texts, code) + FlagFindings(b, texts, code), r3, on3, min, texts, code);
  }

  /**
    * One flag rule of `analysis`: its finding `v` is added when the rule's flag is up and
    * its criticality reaches the minimum.
    */
  method CheckFlag(results: Results, r: FlagRule, on: bool, min: Criticality, v: Vulnerability,
    ghost b0: map<Criticality, set<Vulnerability>>, ghost added: seq<Vulnerability>)
    requires results.Valid() && Extended(b0, results.buckets, added)
    modifies results
    ensures results.Valid() && results.Info() == old(results.Info())
    ensures Extended(b0, results.buckets, AppendIf(added, on && Le(min, RuleCriticality(r)), v))
  {
    if on {
      var criticality := RuleCriticality(r);
      if Le(min, criticality) {
        Report(results, v, b0, added);
      }
    }
  }

  /** Three flag rules run in turn, each reported when its flag is up and its criticality reaches the minimum. */
  method CheckFlags(results: Results, r1: FlagRule, on1: bool, r2: FlagRule, on2: bool, r3: FlagRule, on3: bool,
    min: Criticality, texts: FlagTexts, code: string, ghost b0: map<Criticality, set<Vulnerability>>, ghost found: seq<Vulnerability>)
    requires results.Valid() && Extended(b0, results.buckets, found)
    modifies results
    ensures results.Valid() && results.Info() == old(results.Info())
    ensures Extended(b0, results.buckets,
      found + FlagFindings(Selected(r1, on1, min) + Selected(r2, on2, min) + Selected(r3, on3, min), texts, code))
  {
    CheckFlag(results, r1, on1, min, FlagFinding(r1, texts, code), b0, found);
    ghost var s1 := AppendIf(found, on1 && Le(min, RuleCriticality(r1)), FlagFinding(r1, texts, code));
    CheckFlag(results, r2, on2, min, FlagFinding(r2, texts, code), b0, s1);
    ghost var s2 := AppendIf(s1, on2 && Le(min, RuleCriticality(r2)), FlagFinding(r2, texts, code));
    CheckFlag(results, r3, on3, min, FlagFinding(r3, texts, code), b0, s2);
    FlagFindingsStepwise(r1, on1, r2, on2, r3, on3, min, texts, code, found);
  }

  /**
    * The flag rules of `analysis`: debug mode, a large heap and backups, in that order,
    * each reported when its flag is up and its criticality reaches the minimum.
    */
  method ReportFlags(manifest: Manifest, min: Criticality, texts: FlagTexts, results: Results,
    ghost b0: map<Criticality, set<Vulnerability>>, ghost found: seq<Vulnerability>)
    requires results.Valid() && Extended(b0, results.buckets, found)
    modifies results
    ensures results.Valid() && results.Info() == old(results.Info())
    ensures Extended(b0, results.buckets, found + FlagFindings(ReportedFlags(manifest.Data(), min), texts, manifest.code))
  {
    CheckFlags(results, DebugRule, manifest.debug, LargeHeapRule, manifest.largeHeap, AllowBackupRule, manifest.allowsBackup,
      min, texts, manifest.code, b0, found);
  }

  /** One more configured permission: its finding follows when the manifest asks for it and it reaches the minimum. */
  lemma PermissionStep(found: seq<Vulnerability>, perms: seq<Configs.ConfigPermission>, i: nat,
    needed: set<Permissions.Permission>, min: Criticality, code: string)
    requires i < |perms|
    ensures found + PermissionFindings(ReportedPermissions(perms[..i + 1], needed, min), code) ==
      AppendIf(found + PermissionFindings(ReportedPermissions(perms[..i], needed, min), code),
        perms[i].name in needed && Le(min, perms[i].criticality), PermissionFinding(perms[i], code))
  {
    var reported := ReportedPermissions(perms[..i], needed, min);
    ReportedPermissionsStep(perms, i, needed, min);
    if perms[i].name in needed && Le(min, perms[i].criticality) {
      PermissionFindingsSnoc(reported, perms[i], code);
      ConcatAssoc(found, PermissionFindings(reported, code), [PermissionFinding(perms[i], code)]);
    } else {
      ConcatNil(reported);
    }
  }

  /**
    * The permission rules of `analysis`: each configured permission, in order, that the
    * manifest asks for and whose criticality reaches the minimum.
    */
  method ReportPermissions(manifest: Manifest, perms: seq<Configs.ConfigPermission>, min: Criticality, results: Results,
    ghost b0: map<Criticality, set<Vulnerability>>, ghost found: seq<Vulnerability>)
    requires results.Valid() && Extended(b0, results.buckets, found)
    modifies results
    ensures results.Valid() && results.Info() == old(results.Info())
    ensures Extended(b0, results.buckets,
      found + PermissionFindings(ReportedPermissions(perms, manifest.permissions.needed, min), manifest.code))
  {
    var code := manifest.code;
    ghost var needed := manifest.permissions.needed;
    var i := 0;
    ConcatNil(found);
    while i < |perms|
      invariant 0 <= i <= |perms|
      invariant results.Valid() && results.Info() == old(results.Info())
      invariant Extended(b0, results.buckets, found + PermissionFindings(ReportedPermissions(perms[..i], needed, min), code))
    {
      var permission := perms[i];
      ghost var before := found + PermissionFindings(ReportedPermissions(perms[..i], needed, min), code);
      if manifest.permissions.NeedsPermission(permission.name) && Le(min, permission.criticality) {
        Report(results, PermissionFinding(permission, code), b0, before);
      }
      PermissionStep(found, perms, i, needed, min, code);
      i := i + 1;
    }
    WholeSlice(perms);
  }

  /**
    * What `analysis` does once the manifest is loaded: its identity goes into the results,
    * then the findings of the flag rules and of the configured permissions the manifest
    * asks for, each reaching the minimum criticality.
    */
  method ReportManifest(manifest: Manifest, config: Configs.Config, texts: FlagTexts, results: Results,
    ghost b0: map<Criticality, set<Vulnerability>>, ghost found: seq<Vulnerability>)
    requires results.Valid() && Extended(b0, results.buckets, found)
    modifies results
    ensures results.Valid()
    ensures results.Info() == IdentityAfter(old(results.Info()), manifest.Data())
    ensures Extended(b0, results.buckets, found + AnalysisFindings(manifest.Data(), manifest.permissions.needed,
      config.permissions, texts, manifest.code, config.minCriticality))
  {
    var min := config.minCriticality;
    CopyIdentity(manifest, results);
    ghost var flags := FlagFindings(ReportedFlags(manifest.Data(), min), texts, manifest.code);
    ghost var perms := PermissionFindings(ReportedPermissions(config.permissions, manifest.permissions.needed, min),
      manifest.code);
    ReportFlags(manifest, min, texts, results, b0, found);
    ReportPermissions(manifest, config.permissions, min, results, b0, found + flags);
    ConcatAssoc(found, flags, perms);
  }

  /**
    * `analysis`: loads the manifest; without one there is nothing more to do. Otherwise the
    * manifest's identity goes into the results, then the findings of the flag rules and of
    * the configured permissions the manifest asks for, each reaching the minimum
    * criticality, after those `load` added.
    */
  method Analysis(config: Configs.Config, package: string, fileText: Option<string>, events: seq<XmlEvent>,
    strings: map<string, string>, results: Results) returns (m: Option<Manifest>)
    requires results.Valid()
    modifies results
    ensures results.Valid()
    ensures fileText.None? ==> m.None? && results.Info() == old(results.Info()) && results.buckets == old(results.buckets)
    ensures fileText.Some? ==> m.Some? && fresh(m.value)
    ensures fileText.Some? && m.Some? ==>
      var settings := Settings(config.minCriticality, config.unknownPermission.0, config.unknownPermission.1);
      var s := Loaded(events, fileText.value, strings, settings);
      m.value.Data() == s.data && m.value.permissions.needed == s.needed
      && results.Info() == IdentityAfter(old(results.Info()), s.data)
      && Extended(old(results.buckets), results.buckets,
        s.found + AnalysisFindings(s.data, s.needed, config.permissions, SourceFlagTexts, fileText.value, config.minCriticality))
  {
    var settings := Settings(config.minCriticality, config.unknownPermission.0, config.unknownPermission.1);
    var loaded := Manifest.Load(fileText, events, strings, settings, results);
    if loaded.Err? {
      return None;
    }
    var manifest := loaded.value;
    ReportManifest(manifest, config, SourceFlagTexts, results, old(results.buckets),
      Loaded(events, fileText.value, strings, settings).found);
    return Some(manifest);
  }
}
