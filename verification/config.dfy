/**
  * `Config`: the settings of one run, filled from the defaults, the configuration file and
  * the command line, and updated in place while the run goes on.
  */
module Configs {
  import opened Common
  import Text
  import Paths
  import opened Criticalities
  import opened Vulnerabilities
  import Permissions

  /** The largest `usize` of the 64-bit targets the analyzer is built for. */
  const UsizeMax: nat := 0xFFFF_FFFF_FFFF_FFFF
  const I64Max: int := 0x7FFF_FFFF_FFFF_FFFF

  const DefaultUnknownPermissionDescription: string :=
    "Even if the application can create its own permissions, it's discouraged, since it can lead to misunderstanding between developers."

  /** A vulnerable permission as configured: the manifest permission and what to report for it. */
  datatype ConfigPermission = ConfigPermission(
    name: Permissions.Permission,
    criticality: Criticality,
    permissionLabel: string,
    description: string)

  /** The hand-written `eq`: two configured permissions are equal when their names are. */
  predicate PermissionEq(a: ConfigPermission, b: ConfigPermission) {
    a.name == b.name
  }

  /** The hand-written `partial_cmp`: the order of the names, whose order is their declaration order. */
  function PermissionCmp(a: ConfigPermission, b: ConfigPermission): Ordering {
    CmpInt(a.name, b.name)
  }

  /**
    * `partial_cmp` ties exactly when `eq` holds, is antisymmetric, and looks at nothing but
    * the name.
    */
  lemma PermissionCmpByName(a: ConfigPermission, b: ConfigPermission, c: Criticality, l: string, d: string)
    ensures PermissionCmp(a, b) == Equal <==> PermissionEq(a, b)
    ensures PermissionCmp(b, a) == Flip(PermissionCmp(a, b))
    ensures PermissionCmp(a.(criticality := c, permissionLabel := l, description := d), b) == PermissionCmp(a, b)
    ensures PermissionEq(a.(criticality := c, permissionLabel := l, description := d), b) == PermissionEq(a, b)
  {
  }

  /** The TOML values the two hand-written field readers look at. */
  datatype TomlValue = Integer(i: int) | Str(s: string) | Table(entries: map<string, TomlValue>) | OtherValue

  /**
    * `usize::max_value() as i64`: the value reduced modulo 2^64 and read back as a signed
    * 64-bit integer.
    */
  function AsI64(n: nat): (r: int)
    ensures -0x8000_0000_0000_0000 <= r <= I64Max
  {
    var m := n % 0x1_0000_0000_0000_0000;
    if m > I64Max then m - 0x1_0000_0000_0000_0000 else m
  }

  /** The largest `usize` of a target whose words have `bits` bits. */
  function UsizeMaxOf(bits: nat): nat {
    Pow2(bits) - 1
  }

  function Pow2(n: nat): (r: nat)
    ensures r >= 1
  {
    if n == 0 then 1 else 2 * Pow2(n - 1)
  }

  /**
    * The upper bound of `deserialize_threads`: `i64::MAX` when `usize::MAX` turns negative
    * as an `i64`, and `usize::MAX` itself otherwise.
    */
  function ThreadBound(bits: nat): int {
    if AsI64(UsizeMaxOf(bits)) < 0 then I64Max else AsI64(UsizeMaxOf(bits))
  }

  /** `deserialize_threads`: an integer from 1 up to the bound; anything else is an error. */
  function ThreadsFromToml(v: TomlValue, bits: nat): (r: Result<nat, string>)
    requires v.Integer? ==> -0x8000_0000_0000_0000 <= v.i <= I64Max
    ensures r.Ok? ==> r.value > 0
  {
    match v
    case Integer(t) =>
      if t > 0 && t <= ThreadBound(bits) then Ok(t) else Err("threads is not in the valid range")
    case _ => Err("unexpected value")
  }

  /**
    * On 32-bit and 64-bit targets the bound is exactly the largest `usize`: a thread count
    * is accepted precisely when it is a positive integer that fits in a `usize`.
    */
  lemma ThreadsAcceptedInRange(t: int, bits: nat)
    requires bits == 32 || bits == 64
    requires -0x8000_0000_0000_0000 <= t <= I64Max
    ensures ThreadsFromToml(Integer(t), bits).Ok? <==> 0 < t <= UsizeMaxOf(bits)
    ensures ThreadsFromToml(Integer(t), bits).Ok? ==> ThreadsFromToml(Integer(t), bits).value == t
  {
    if bits == 32 {
      assert Pow2(32) == 0x1_0000_0000 by { Pow2Value32(); }
    } else {
      assert Pow2(64) == 0x1_0000_0000_0000_0000 by { Pow2Value32(); Pow2Double(32); }
    }
  }

  lemma Pow2Value32()
    ensures Pow2(32) == 0x1_0000_0000
  {
    assert Pow2(8) == 256;
    assert Pow2(16) == 65536 by { Pow2Double(8); }
    Pow2Double(16);
  }

  lemma {:induction false} Pow2Double(n: nat)
    ensures Pow2(n + n) == Pow2(n) * Pow2(n)
  {
    Pow2Add(n, n);
  }

  lemma {:induction false} Pow2Add(a: nat, b: nat)
    ensures Pow2(a + b) == Pow2(a) * Pow2(b)
    decreases a
  {
    if a > 0 {
      Pow2Add(a - 1, b);
    }
  }

  /** Why `deserialize_unknown_permission` rejects a value. */
  datatype UnknownPermissionError =
    | NotATable
    | CriticalityNotFound
    | DescriptionNotFound
    | InvalidCriticality(value: string)

  function StrEntry(entries: map<string, TomlValue>, key: string): Option<string> {
    if key in entries && entries[key].Str? then Some(entries[key].s) else None
  }

  /**
    * `deserialize_unknown_permission`: a table whose `criticality` and `description` are
    * strings, looked up in that order, and whose criticality then parses.
    */
  function UnknownPermissionFromToml(v: TomlValue): (r: Result<(Criticality, string), UnknownPermissionError>)
    ensures r.Ok? <==>
      v.Table? && StrEntry(v.entries, "criticality").Some? && StrEntry(v.entries, "description").Some?
      && FromStr(StrEntry(v.entries, "criticality").value).Ok?
    ensures r.Ok? ==> r.value == (FromStr(StrEntry(v.entries, "criticality").value).value,
                                  StrEntry(v.entries, "description").value)
  {
    match v
    case Table(entries) =>
      (match StrEntry(entries, "criticality")
       case None => Err(CriticalityNotFound)
       case Some(c) =>
         match StrEntry(entries, "description")
         case None => Err(DescriptionNotFound)
         case Some(d) =>
           match FromStr(c)
           case Ok(crit) => Ok((crit, d))
           case Err(_) => Err(InvalidCriticality(c)))
    case _ => Err(NotATable)
  }

  /** A missing description is reported before a criticality that does not parse. */
  lemma UnknownPermissionErrorOrder()
    ensures UnknownPermissionFromToml(Table(map["criticality" := Str("severe")])) == Err(DescriptionNotFound)
    ensures UnknownPermissionFromToml(Table(map["criticality" := Str("severe"), "description" := Str("d")]))
      == Err(InvalidCriticality("severe"))
    ensures UnknownPermissionFromToml(Table(map["criticality" := Str("High"), "description" := Str("d")]))
      == Ok((High, "d"))
  {
    assert FromStr("severe").Err? by { FromStrSevere(); }
    assert FromStr("High") == Ok(High) by { FromStrHigh(); }
  }

  lemma FromStrSevere()
    ensures FromStr("severe").Err?
  {
    assert Text.ToLower("severe") == "severe";
  }

  lemma FromStrHigh()
    ensures FromStr("High") == Ok(High)
  {
    assert Text.ToLower("High") == "high";
  }

  /**
    * The path `add_app_package` records: the package joined onto the downloads folder, then
    * given the extension `apk` when it has none, or `.apk` appended to its file name when
    * its extension is something else.
    */
  function PackagePath(downloads: string, package: string): string {
    var path := Paths.Join(downloads, package);
    match Paths.Extension(path)
    case None => Paths.SetExtension(path, "apk")
    case Some(ext) =>
      if ext == "apk" then path
      else Paths.SetFileName(path, Paths.FileName(path).value + ".apk")
  }

  /** A plain file name under a folder: the name is the path's file name and carries its extension. */
  lemma {:induction false} PlainPackageParts(downloads: string, name: string)
    requires downloads != [] && downloads[|downloads| - 1] != '/'
    requires name != [] && '/' !in name && name[|name| - 1] != '.'
    ensures Paths.Join(downloads, name) == downloads + "/" + name
    ensures Paths.Trim(downloads + "/" + name) == downloads + "/" + name
    ensures Paths.NameStart(downloads + "/" + name) == |downloads| + 1
    ensures Paths.FileName(downloads + "/" + name) == Some(name)
    ensures Paths.Extension(downloads + "/" + name) == Paths.ExtensionOfName(name)
  {
    Paths.JoinRelative(downloads, name);
    var x := downloads + "/";
    assert x + name == downloads + "/" + name;
    Paths.NameOfPlainTail(x, name);
    assert name != "." && name != "..";
  }

  lemma SetExtensionPlain(downloads: string, name: string)
    requires downloads != [] && downloads[|downloads| - 1] != '/'
    requires name != [] && '/' !in name && name[|name| - 1] != '.'
    requires Paths.ExtensionOfName(name).None?
    ensures Paths.SetExtension(downloads + "/" + name, "apk") == downloads + "/" + name + ".apk"
  {
    PlainPackageParts(downloads, name);
    var p := downloads + "/" + name;
    assert p[..|downloads| + 1] == downloads + "/";
  }

  lemma SetFileNamePlain(downloads: string, name: string, newName: string)
    requires downloads != [] && downloads[|downloads| - 1] != '/' && Paths.Trim(downloads) == downloads
    requires name != [] && '/' !in name && name[|name| - 1] != '.'
    requires newName != [] && newName[0] != '/'
    ensures Paths.SetFileName(downloads + "/" + name, newName) == downloads + "/" + newName
  {
    PlainPackageParts(downloads, name);
    var p := downloads + "/" + name;
    assert p[..|downloads| + 1] == downloads + "/";
    var x := downloads + "/";
    assert x[..|x| - 1] == downloads;
    assert Paths.Trim(x) == Paths.Trim(downloads);
    Paths.JoinRelative(downloads, newName);
  }

  lemma PackagePathOtherExtension(downloads: string, name: string)
    requires downloads != [] && downloads[|downloads| - 1] != '/' && Paths.Trim(downloads) == downloads
    requires name != [] && '/' !in name && name[|name| - 1] != '.'
    requires Paths.ExtensionOfName(name).Some? && Paths.ExtensionOfName(name) != Some("apk")
    ensures PackagePath(downloads, name) == downloads + "/" + (name + ".apk")
  {
    PlainPackageParts(downloads, name);
    assert (name + ".apk")[0] == name[0];
    SetFileNamePlain(downloads, name, name + ".apk");
  }

  /**
    * For a plain package name and a downloads folder that does not end in a separator, the
    * recorded path is the folder, `/` and the name, followed by `.apk` unless the name
    * already has the extension `apk`: `.apk` becomes the extension of a name without one
    * and is appended to a name with another.
    */
  lemma PackagePathAddsApk(downloads: string, name: string)
    requires downloads != [] && downloads[|downloads| - 1] != '/' && Paths.Trim(downloads) == downloads
    requires name != [] && '/' !in name && name[|name| - 1] != '.'
    ensures Paths.ExtensionOfName(name) == Some("apk") ==> PackagePath(downloads, name) == downloads + "/" + name
    ensures Paths.ExtensionOfName(name).None? ==> PackagePath(downloads, name) == downloads + "/" + name + ".apk"
    ensures Paths.ExtensionOfName(name).Some? && Paths.ExtensionOfName(name) != Some("apk") ==>
              PackagePath(downloads, name) == downloads + "/" + (name + ".apk")
  {
    PlainPackageParts(downloads, name);
    if Paths.ExtensionOfName(name).None? {
      SetExtensionPlain(downloads, name);
    } else if Paths.ExtensionOfName(name) != Some("apk") {
      PackagePathOtherExtension(downloads, name);
    }
  }

  /** The case of the unit test: `test_app` in the downloads folder `.` becomes `./test_app.apk`. */
  lemma PackagePathExample()
    ensures PackagePath(".", "test_app") == "./test_app.apk"
  {
    TestAppFacts();
    PackagePathAddsApk(".", "test_app");
  }

  lemma TestAppFacts()
    ensures Paths.Trim(".") == "."
    ensures Paths.ExtensionOfName("test_app") == None
    ensures '/' !in "test_app" && "test_app"[7] != '.'
    ensures "." + "/" + "test_app" + ".apk" == "./test_app.apk"
  {
    assert '.' !in "test_app";
  }

  /** The file stem of a path whose extension is `apk`; `None` for any other path. */
  function ApkStem(path: string): Option<string> {
    if Paths.Extension(path) == Some("apk") then Some(Paths.StemOfName(Paths.FileName(path).value)) else None
  }

  /** The package `read_apks` adds for one entry of the downloads folder, if any. */
  function ApkPackage(downloads: string, entry: Option<string>): seq<string> {
    if entry.Some? && ApkStem(entry.value).Some? then [PackagePath(downloads, ApkStem(entry.value).value)] else []
  }

  /** The packages `read_apks` adds for the entries of the downloads folder, in order. */
  function ApkPackages(downloads: string, entries: seq<Option<string>>): seq<string> {
    if entries == [] then []
    else ApkPackages(downloads, entries[..|entries| - 1]) + ApkPackage(downloads, entries[|entries| - 1])
  }

  /** The loop step of `read_apks`: one more entry adds its package, if any, after those of the entries before it. */
  lemma ApkPackagesStep(start: seq<string>, before: seq<string>, after: seq<string>, downloads: string,
    entries: seq<Option<string>>, i: nat)
    requires i < |entries|
    requires before == start + ApkPackages(downloads, entries[..i])
    requires after == before + ApkPackage(downloads, entries[i])
    ensures after == start + ApkPackages(downloads, entries[..i + 1])
  {
    ApkPackagesSnoc(downloads, entries, i);
    var done, added := ApkPackages(downloads, entries[..i]), ApkPackage(downloads, entries[i]);
    assert after == start + done + added;
  }

  /** The packages of one more entry are those before it and then its own. */
  lemma ApkPackagesSnoc(downloads: string, entries: seq<Option<string>>, i: nat)
    requires i < |entries|
    ensures ApkPackages(downloads, entries[..i + 1]) == ApkPackages(downloads, entries[..i]) + ApkPackage(downloads, entries[i])
  {
    SlicePrefix(entries, i + 1, i);
  }

  /** The command-line values `set_options` reads; `None` for an option not given. */
  datatype CliOptions = CliOptions(
    minCriticality: Option<string>,
    threads: Option<string>,
    downloads: Option<string>,
    dist: Option<string>,
    results: Option<string>,
    dex2jar: Option<string>,
    jdCmd: Option<string>,
    template: Option<string>,
    rules: Option<string>)

  /** The whole command line `decorate_with_cli` reads. */
  datatype Cli = Cli(
    options: CliOptions,
    verbose: bool,
    quiet: bool,
    force: bool,
    bench: bool,
    open: bool,
    json: bool,
    html: bool,
    testAll: bool,
    package: Option<string>)

  function OrElse(o: Option<string>, current: string): string {
    if o.Some? then o.value else current
  }

  /** The minimum criticality after `set_options`: the given one if it parses, else the current. */
  function MinCriticalityAfter(o: Option<string>, current: Criticality): (r: Criticality)
    ensures o.None? || FromStr(o.value).Err? ==> r == current
    ensures o.Some? && FromStr(o.value).Ok? ==> r == FromStr(o.value).value
  {
    if o.Some? && FromStr(o.value).Ok? then FromStr(o.value).value else current
  }

  /** The thread count after `set_options`: the given one if it is a positive `usize`, else the current. */
  function ThreadsAfter(o: Option<string>, current: nat): (r: nat)
    ensures r == current || (o.Some? && Text.ParseUnsigned(o.value, UsizeMax) == Some(r) && r > 0)
    ensures o.Some? && Text.ParseUnsigned(o.value, UsizeMax).Some? && Text.ParseUnsigned(o.value, UsizeMax).value > 0
      ==> r == Text.ParseUnsigned(o.value, UsizeMax).value
  {
    if o.Some? && Text.ParseUnsigned(o.value, UsizeMax).Some? && Text.ParseUnsigned(o.value, UsizeMax).value > 0
    then Text.ParseUnsigned(o.value, UsizeMax).value
    else current
  }

  /** The run modes of a `Config`: `verbose` up to `html`. */
  datatype Modes = Modes(
    verbose: bool,
    quiet: bool,
    overallForce: bool,
    force: bool,
    bench: bool,
    open: bool,
    json: bool,
    html: bool)

  /** Where a `Config` finds its inputs and puts its outputs: `downloads_folder` up to `template`. */
  datatype Locations = Locations(
    downloadsFolder: string,
    distFolder: string,
    resultsFolder: string,
    dex2jarFolder: string,
    jdCmdFile: string,
    rulesJson: string,
    templatesFolder: string,
    template: string)

  /** The locations after `set_options`: each option given replaces its location. */
  function LocationsAfter(cli: CliOptions, l: Locations): Locations {
    Locations(
      OrElse(cli.downloads, l.downloadsFolder),
      OrElse(cli.dist, l.distFolder),
      OrElse(cli.results, l.resultsFolder),
      OrElse(cli.dex2jar, l.dex2jarFolder),
      OrElse(cli.jdCmd, l.jdCmdFile),
      OrElse(cli.rules, l.rulesJson),
      l.templatesFolder,
      OrElse(cli.template, l.template))
  }

  /** The modes `decorate_with_cli` sets: the current force mode starts as the overall one. */
  function ModesOf(cli: Cli): (m: Modes)
    ensures m.force == m.overallForce == cli.force
  {
    Modes(cli.verbose, cli.quiet, cli.force, cli.force, cli.bench, cli.open, cli.json, cli.html)
  }

  /** What `check` and `errors` find missing. */
  datatype ConfigIssue =
    | MissingDownloadsFolder(path: string)
    | MissingPackage(path: string)
    | MissingDex2jarFolder(path: string)
    | MissingJdCmdFile(path: string)
    | MissingTemplatesFolder(path: string)
    | MissingTemplate(name: string, folder: string)
    | MissingRules(path: string)

  /**
    * The fields of the source's flat `Config` struct, with the eight run modes and the
    * eight locations each gathered into one value.
    */
  class Config {
    var appPackages: seq<string>
    var modes: Modes
    var minCriticality: Criticality
    var threads: nat
    var locations: Locations
    var unknownPermission: (Criticality, string)
    /** The configured permissions, in the order of their set. */
    var permissions: seq<ConfigPermission>
    var loadedFiles: seq<string>

    /** The thread count is a positive `usize`. */
    predicate ThreadsValid()
      reads this
    {
      1 <= threads <= UsizeMax
    }

    /**
      * `local_default`: no packages, every mode off, minimum criticality `Warning`, one
      * thread per processor, and the folders and files relative to the working directory.
      * The vendor paths are the joins of `vendor` with the tool names, written out.
      */
    constructor LocalDefault(cpus: nat)
      ensures appPackages == [] && permissions == [] && loadedFiles == []
      ensures modes == Modes(false, false, false, false, false, false, false, false)
      ensures minCriticality == Warning && threads == cpus
      ensures locations == Locations(".", "dist", "results", "vendor/dex2jar-2.1-SNAPSHOT",
        "vendor/jd-cmd.jar", "rules.json", "templates", "super")
      ensures unknownPermission == (Low, DefaultUnknownPermissionDescription)
    {
      appPackages := [];
      modes := Modes(false, false, false, false, false, false, false, false);
      minCriticality := Warning;
      threads := cpus;
      locations := Locations(".", "dist", "results", "vendor/dex2jar-2.1-SNAPSHOT",
        "vendor/jd-cmd.jar", "rules.json", "templates", "super");
      unknownPermission := (Low, DefaultUnknownPermissionDescription);
      permissions := [];
      loadedFiles := [];
    }

    /**
      * `default` on Unix: the local defaults, with the system-wide rules file when it exists
      * and the vendor tools and templates of the shared folder when that exists.
      */
    constructor Default(cpus: nat, etcRulesExists: bool, macos: bool, shareExists: bool)
      ensures appPackages == [] && permissions == [] && loadedFiles == []
      ensures modes == Modes(false, false, false, false, false, false, false, false)
      ensures minCriticality == Warning && threads == cpus
      ensures var share := if macos then "/usr/local/super-analyzer" else "/usr/share/super-analyzer";
        locations == Locations(".", "dist", "results",
          if shareExists then share + "/vendor/dex2jar-2.1-SNAPSHOT" else "vendor/dex2jar-2.1-SNAPSHOT",
          if shareExists then share + "/vendor/jd-cmd.jar" else "vendor/jd-cmd.jar",
          if etcRulesExists then "/etc/super-analyzer/rules.json" else "rules.json",
          if shareExists then share + "/templates" else "templates",
          "super")
      ensures unknownPermission == (Low, DefaultUnknownPermissionDescription)
    {
      appPackages := [];
      modes := Modes(false, false, false, false, false, false, false, false);
      minCriticality := Warning;
      threads := cpus;
      var l := Locations(".", "dist", "results", "vendor/dex2jar-2.1-SNAPSHOT",
        "vendor/jd-cmd.jar", "rules.json", "templates", "super");
      if etcRulesExists {
        l := l.(rulesJson := "/etc/super-analyzer/rules.json");
      }
      var share := if macos then "/usr/local/super-analyzer" else "/usr/share/super-analyzer";
      if shareExists {
        l := l.(dex2jarFolder := share + "/vendor/dex2jar-2.1-SNAPSHOT",
                jdCmdFile := share + "/vendor/jd-cmd.jar",
                templatesFolder := share + "/templates");
      }
      locations := l;
      unknownPermission := (Low, DefaultUnknownPermissionDescription);
      permissions := [];
      loadedFiles := [];
    }

    /**
      * `add_app_package`: appends the package's path and leaves the packages added before,
      * and every other setting, as they were.
      */
    method AddAppPackage(package: string)
      modifies this`appPackages
      ensures appPackages == old(appPackages) + [PackagePath(locations.downloadsFolder, package)]
      ensures |appPackages| == |old(appPackages)| + 1 && appPackages[..|old(appPackages)|] == old(appPackages)
    {
      var packagePath := Paths.Join(locations.downloadsFolder, package);
      var ext := Paths.Extension(packagePath);
      if ext.None? {
        packagePath := Paths.SetExtension(packagePath, "apk");
      } else if ext.value != "apk" {
        var fileName := Paths.FileName(packagePath).value + ".apk";
        packagePath := Paths.SetFileName(packagePath, fileName);
      }
      appPackages := appPackages + [packagePath];
    }

    /**
      * `read_apks`: for each readable entry of the downloads folder whose extension is
      * `apk`, in order, adds the package named by its file stem; unreadable entries are
      * skipped.
      */
    method ReadApks(entries: seq<Option<string>>)
      modifies this`appPackages
      ensures appPackages == old(appPackages) + ApkPackages(locations.downloadsFolder, entries)
    {
      var i := 0;
      while i < |entries|
        invariant 0 <= i <= |entries|
        invariant appPackages == old(appPackages) + ApkPackages(locations.downloadsFolder, entries[..i])
      {
        ghost var before := appPackages;
        ReadApk(entries[i]);
        ApkPackagesStep(old(appPackages), before, appPackages, locations.downloadsFolder, entries, i);
        i := i + 1;
      }
      WholeSlice(entries);
    }

    /** One entry of the downloads folder in `read_apks`. */
    method ReadApk(entry: Option<string>)
      modifies this`appPackages
      ensures appPackages == old(appPackages) + ApkPackage(locations.downloadsFolder, entry)
    {
      if entry.Some? {
        var stem := ApkStem(entry.value);
        if stem.Some? {
          AddAppPackage(stem.value);
        }
      }
    }

    /** `set_force`: forces the current analysis only. */
    method SetForce()
      modifies this`modes
      ensures modes == old(modes).(force := true)
    {
      modes := modes.(force := true);
    }

    /** `reset_force`: back to the force mode the run was started with. */
    method ResetForce()
      modifies this`modes
      ensures modes == old(modes).(force := old(modes.overallForce))
    {
      modes := modes.(force := modes.overallForce);
    }

    /** `has_to_generate_json`. */
    function HasToGenerateJson(): bool
      reads this
    {
      modes.json
    }

    /**
      * `has_to_generate_html`: unless only JSON was asked for; so some report is always
      * generated, and with neither flag it is the HTML one.
      */
    function HasToGenerateHtml(): (r: bool)
      reads this
      ensures r || HasToGenerateJson()
      ensures !modes.json && !modes.html ==> r && !HasToGenerateJson()
      ensures modes.json && !modes.html ==> !r
    {
      !modes.json || modes.html
    }

    /** `template_path`. */
    function TemplatePath(): string
      reads this
    {
      Paths.Join(locations.templatesFolder, locations.template)
    }

    /**
      * `set_options`: each option given replaces its setting; a minimum criticality that
      * does not parse, or a thread count that is not a positive `usize`, leaves the
      * setting as it was.
      */
    method SetOptions(cli: CliOptions)
      modifies this`minCriticality, this`threads, this`locations
      ensures minCriticality == MinCriticalityAfter(cli.minCriticality, old(minCriticality))
      ensures threads == ThreadsAfter(cli.threads, old(threads))
      ensures locations == LocationsAfter(cli, old(locations))
      ensures old(ThreadsValid()) ==> ThreadsValid()
    {
      if cli.minCriticality.Some? {
        var m := FromStr(cli.minCriticality.value);
        if m.Ok? {
          minCriticality := m.value;
        }
      }
      if cli.threads.Some? {
        var t := Text.ParseUnsigned(cli.threads.value, UsizeMax);
        if t.Some? && t.value > 0 {
          threads := t.value;
        }
      }
      locations := LocationsAfter(cli, locations);
    }

    /**
      * `decorate_with_cli`: the options, then the modes, then the packages: every APK of
      * the downloads folder with `test-all`, else the one named. `downloadsEntries` is the
      * listing of the downloads folder, `None` when it cannot be read, which is an error.
      */
    method DecorateWithCli(cli: Cli, downloadsEntries: Option<seq<Option<string>>>) returns (r: Result<(), string>)
      requires !cli.testAll ==> cli.package.Some?
      modifies this`minCriticality, this`threads, this`locations, this`modes, this`appPackages
      ensures r.Err? <==> cli.testAll && downloadsEntries.None?
      ensures minCriticality == MinCriticalityAfter(cli.options.minCriticality, old(minCriticality))
      ensures threads == ThreadsAfter(cli.options.threads, old(threads))
      ensures locations == LocationsAfter(cli.options, old(locations))
      ensures modes == ModesOf(cli)
      ensures r.Ok? ==>
                appPackages == old(appPackages) +
                (if cli.testAll then ApkPackages(locations.downloadsFolder, downloadsEntries.value)
                 else [PackagePath(locations.downloadsFolder, cli.package.value)])
      ensures r.Err? ==> appPackages == old(appPackages)
    {
      SetOptions(cli.options);
      modes := ModesOf(cli);
      if cli.testAll {
        if downloadsEntries.None? {
          return Err("error loading all the downloaded APKs");
        }
        ReadApks(downloadsEntries.value);
      } else {
        AddAppPackage(cli.package.value);
      }
      r := Ok(());
    }

    /**
      * `check`: the downloads folder, the vendor tools, the template and the rules file
      * exist, and so does every package. `existing` holds the paths that exist.
      */
    method Check(existing: set<string>) returns (ok: bool)
      ensures ok <==> CheckedPathsExist(existing) && (forall i :: 0 <= i < |appPackages| ==> appPackages[i] in existing)
    {
      if !CheckedPathsExist(existing) {
        return false;
      }
      var i := 0;
      while i < |appPackages|
        invariant 0 <= i <= |appPackages|
        invariant forall k :: 0 <= k < i ==> appPackages[k] in existing
      {
        if appPackages[i] !in existing {
          return false;
        }
        i := i + 1;
      }
      return true;
    }

    /** The paths besides the packages that `check` requires to exist. */
    predicate CheckedPathsExist(existing: set<string>)
      reads this
    {
      locations.downloadsFolder in existing && locations.dex2jarFolder in existing
      && locations.jdCmdFile in existing && TemplatePath() in existing && locations.rulesJson in existing
    }

    /**
      * `errors`: one issue per missing path, in the order the source checks them; the
      * templates folder is checked here but not by `check`.
      */
    method Errors(existing: set<string>) returns (errors: seq<ConfigIssue>)
      ensures errors == Issues(existing)
    {
      var l := locations;
      errors := [];
      if l.downloadsFolder !in existing {
        errors := errors + [MissingDownloadsFolder(l.downloadsFolder)];
      }
      var i := 0;
      var before := errors;
      while i < |appPackages|
        invariant 0 <= i <= |appPackages|
        invariant errors == before + MissingPackages(appPackages[..i], existing)
      {
        SlicePrefix(appPackages, i + 1, i);
        if appPackages[i] !in existing {
          errors := errors + [MissingPackage(appPackages[i])];
        }
        i := i + 1;
      }
      WholeSlice(appPackages);
      errors := errors + LocationIssues(l, TemplatePath(), existing);
    }

    /** The issues `errors` reports, in order. */
    function Issues(existing: set<string>): seq<ConfigIssue>
      reads this
    {
      (if locations.downloadsFolder !in existing then [MissingDownloadsFolder(locations.downloadsFolder)] else [])
      + MissingPackages(appPackages, existing)
      + LocationIssues(locations, TemplatePath(), existing)
    }

    /**
      * No issue is reported exactly when everything `check` looks at exists and so does the
      * templates folder; so an empty report means `check` passes.
      */
    lemma IssuesEmpty(existing: set<string>)
      ensures Issues(existing) == [] <==>
        CheckedPathsExist(existing) && locations.templatesFolder in existing
        && forall i :: 0 <= i < |appPackages| ==> appPackages[i] in existing
    {
      MissingPackagesEmpty(appPackages, existing);
    }
  }

  /** The issues `errors` reports after the packages: tools, templates and rules. */
  function LocationIssues(l: Locations, templatePath: string, existing: set<string>): (r: seq<ConfigIssue>)
    ensures r == [] <==>
              l.dex2jarFolder in existing && l.jdCmdFile in existing
              && l.templatesFolder in existing && templatePath in existing && l.rulesJson in existing
  {
    (if l.dex2jarFolder !in existing then [MissingDex2jarFolder(l.dex2jarFolder)] else [])
    + (if l.jdCmdFile !in existing then [MissingJdCmdFile(l.jdCmdFile)] else [])
    + (if l.templatesFolder !in existing then [MissingTemplatesFolder(l.templatesFolder)] else [])
    + (if templatePath !in existing then [MissingTemplate(l.template, l.templatesFolder)] else [])
    + (if l.rulesJson !in existing then [MissingRules(l.rulesJson)] else [])
  }

  /** One issue per missing package, in order. */
  function MissingPackages(packages: seq<string>, existing: set<string>): seq<ConfigIssue> {
    if packages == [] then []
    else
      MissingPackages(packages[..|packages| - 1], existing)
      + (if packages[|packages| - 1] !in existing then [MissingPackage(packages[|packages| - 1])] else [])
  }

  lemma {:induction false} MissingPackagesEmpty(packages: seq<string>, existing: set<string>)
    ensures MissingPackages(packages, existing) == [] <==> forall i :: 0 <= i < |packages| ==> packages[i] in existing
    decreases |packages|
  {
    if packages != [] {
      MissingPackagesEmpty(packages[..|packages| - 1], existing);
      assert forall i :: 0 <= i < |packages| - 1 ==> packages[..|packages| - 1][i] == packages[i];
    }
  }

  /**
    * The configuration unit test without its file system steps: the default settings, one
    * package added, and the force mode reset under both overall settings; then the report
    * formats when neither flag is set.
    */
  method ConfigScenario() returns (firstPackage: string, forceAfterReset: bool, forceAfterOverall: bool,
                                   html: bool, json: bool)
    ensures firstPackage == "./test_app.apk"
    ensures !forceAfterReset && forceAfterOverall
    ensures html && !json
  {
    var config := new Config.Default(4, false, false, false);
    config.AddAppPackage("test_app");
    PackagePathExample();
    config.modes := config.modes.(verbose := true, quiet := true, force := true, bench := true, open := true);
    firstPackage := config.appPackages[0];
    config.ResetForce();
    forceAfterReset := config.modes.force;
    config.modes := config.modes.(overallForce := true);
    config.ResetForce();
    forceAfterOverall := config.modes.force;
    var formats := new Config.Default(4, false, false, false);
    formats.modes := formats.modes.(html := false, json := false);
    html := formats.HasToGenerateHtml();
    json := formats.HasToGenerateJson();
  }
}
