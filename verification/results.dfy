/**
  * `Results`: what the analysis of one application found, with its identity (package,
  * label, version, SDK levels) and the findings sorted into one set per criticality.
  */
module ResultsStore {
  import opened Common
  import opened Criticalities
  import opened Vulnerabilities
  import opened SdkNumbers

  /** The identity fields of `Results`, gathered. */
  datatype AppInfo = AppInfo(
    package: string,
    appLabel: string,
    description: string,
    version: string,
    versionNum: U32,
    minSdk: SdkNumber,
    targetSdk: Option<SdkNumber>,
    certificate: string)

  /** The bucket of criticality `c` in a map of buckets; a missing key is an empty bucket. */
  function BucketOf(m: map<Criticality, set<Vulnerability>>, c: Criticality): set<Vulnerability> {
    if c in m then m[c] else {}
  }

  /** The findings of `fs` whose criticality is `c`. */
  function Added(fs: seq<Vulnerability>, c: Criticality): set<Vulnerability> {
    set v | v in fs && v.criticality == c
  }

  /** `after` is `before` with every finding of `fs` added to the bucket of its criticality. */
  predicate Extended(before: map<Criticality, set<Vulnerability>>, after: map<Criticality, set<Vulnerability>>,
    fs: seq<Vulnerability>)
  {
    forall c: Criticality :: BucketOf(after, c) == BucketOf(before, c) + Added(fs, c)
  }

  /** Adding nothing leaves the buckets as they are. */
  lemma ExtendedNothing(b: map<Criticality, set<Vulnerability>>)
    ensures Extended(b, b, [])
  {
  }

  /** Adding one finding to its own bucket. */
  lemma ExtendedOne(before: map<Criticality, set<Vulnerability>>, after: map<Criticality, set<Vulnerability>>,
    v: Vulnerability)
    requires forall d: Criticality ::
      BucketOf(after, d) == if d == v.criticality then BucketOf(before, d) + {v} else BucketOf(before, d)
    ensures Extended(before, after, [v])
  {
    forall d: Criticality ensures Added([v], d) == if d == v.criticality then {v} else {} {
    }
  }

  /** Adding `fs` and then `gs` is adding `fs + gs`. */
  lemma ExtendedTrans(b0: map<Criticality, set<Vulnerability>>, b1: map<Criticality, set<Vulnerability>>,
    b2: map<Criticality, set<Vulnerability>>, fs: seq<Vulnerability>, gs: seq<Vulnerability>)
    requires Extended(b0, b1, fs) && Extended(b1, b2, gs)
    ensures Extended(b0, b2, fs + gs)
  {
    forall c: Criticality ensures Added(fs + gs, c) == Added(fs, c) + Added(gs, c) {
    }
  }

  class Results {
    var appPackage: string
    var appLabel: string
    var appDescription: string
    var appVersion: string
    var appVersionNum: U32
    var appMinSdk: SdkNumber
    var appTargetSdk: Option<SdkNumber>
    var certificate: string
    /** The five buckets `warnings`, `low`, `medium`, `high` and `critical`, keyed by criticality. */
    var buckets: map<Criticality, set<Vulnerability>>

    /** The bucket that holds the findings of criticality `c`. */
    function Bucket(c: Criticality): set<Vulnerability>
      reads this
    {
      if c in buckets then buckets[c] else {}
    }

    /** What the application is: every field except the findings. */
    function Info(): AppInfo
      reads this
    {
      AppInfo(appPackage, appLabel, appDescription, appVersion, appVersionNum, appMinSdk, appTargetSdk, certificate)
    }

    /** Every finding sits in the bucket of its own criticality. */
    predicate Valid()
      reads this
    {
      forall c: Criticality, v :: v in Bucket(c) ==> v.criticality == c
    }

    /** `init`: empty texts, version 0, minimum SDK `Unknown(0)`, no target SDK, no findings. */
    constructor ()
      ensures Valid()
      ensures appPackage == appLabel == appDescription == appVersion == certificate == ""
      ensures appVersionNum == 0 && appMinSdk == Unknown(0) && appTargetSdk == None
      ensures forall c: Criticality :: Bucket(c) == {}
    {
      appPackage, appLabel, appDescription, appVersion := "", "", "", "";
      appVersionNum := 0;
      appMinSdk := Unknown(0);
      appTargetSdk := None;
      certificate := "";
      buckets := map[Warning := {}, Low := {}, Medium := {}, High := {}, Critical := {}];
    }

    method SetAppPackage(package: string)
      modifies this
      ensures appPackage == package
      ensures appLabel == old(appLabel) && appDescription == old(appDescription)
      ensures appVersion == old(appVersion) && appVersionNum == old(appVersionNum)
      ensures appMinSdk == old(appMinSdk) && appTargetSdk == old(appTargetSdk)
      ensures certificate == old(certificate)
      ensures buckets == old(buckets)
    {
      appPackage := package;
    }

    method SetCertificate(cert: string)
      modifies this
      ensures certificate == cert
      ensures appPackage == old(appPackage) && appLabel == old(appLabel)
      ensures appDescription == old(appDescription)
      ensures appVersion == old(appVersion) && appVersionNum == old(appVersionNum)
      ensures appMinSdk == old(appMinSdk) && appTargetSdk == old(appTargetSdk)
      ensures buckets == old(buckets)
    {
      certificate := cert;
    }

    method SetAppLabel(appLabelText: string)
      modifies this
      ensures appLabel == appLabelText
      ensures appPackage == old(appPackage) && appDescription == old(appDescription)
      ensures appVersion == old(appVersion) && appVersionNum == old(appVersionNum)
      ensures appMinSdk == old(appMinSdk) && appTargetSdk == old(appTargetSdk)
      ensures certificate == old(certificate)
      ensures buckets == old(buckets)
    {
      appLabel := appLabelText;
    }

    method SetAppDescription(description: string)
      modifies this
      ensures appDescription == description
      ensures appPackage == old(appPackage) && appLabel == old(appLabel)
      ensures appVersion == old(appVersion) && appVersionNum == old(appVersionNum)
      ensures appMinSdk == old(appMinSdk) && appTargetSdk == old(appTargetSdk)
      ensures certificate == old(certificate)
      ensures buckets == old(buckets)
    {
      appDescription := description;
    }

    method SetAppVersion(version: string)
      modifies this
      ensures appVersion == version
      ensures appPackage == old(appPackage) && appLabel == old(appLabel)
      ensures appDescription == old(appDescription) && appVersionNum == old(appVersionNum)
      ensures appMinSdk == old(appMinSdk) && appTargetSdk == old(appTargetSdk)
      ensures certificate == old(certificate)
      ensures buckets == old(buckets)
    {
      appVersion := version;
    }

    method SetAppVersionNum(version: U32)
      modifies this
      ensures appVersionNum == version
      ensures appPackage == old(appPackage) && appLabel == old(appLabel)
      ensures appDescription == old(appDescription) && appVersion == old(appVersion)
      ensures appMinSdk == old(appMinSdk) && appTargetSdk == old(appTargetSdk)
      ensures certificate == old(certificate)
      ensures buckets == old(buckets)
    {
      appVersionNum := version;
    }

    /** `set_app_min_sdk`: stores the variant of the level, whose number is the level itself. */
    method SetAppMinSdk(sdk: U32)
      modifies this
      ensures appMinSdk == FromNumber(sdk) && Number(appMinSdk) == sdk
      ensures appPackage == old(appPackage) && appLabel == old(appLabel)
      ensures appDescription == old(appDescription) && appVersion == old(appVersion)
      ensures appVersionNum == old(appVersionNum) && appTargetSdk == old(appTargetSdk)
      ensures certificate == old(certificate)
      ensures buckets == old(buckets)
    {
      NumberFromNumber(sdk);
      appMinSdk := FromNumber(sdk);
    }

    /** `set_app_target_sdk`: a target SDK is present from now on, holding the level's variant. */
    method SetAppTargetSdk(sdk: U32)
      modifies this
      ensures appTargetSdk == Some(FromNumber(sdk)) && Number(appTargetSdk.value) == sdk
      ensures appPackage == old(appPackage) && appLabel == old(appLabel)
      ensures appDescription == old(appDescription) && appVersion == old(appVersion)
      ensures appVersionNum == old(appVersionNum) && appMinSdk == old(appMinSdk)
      ensures certificate == old(certificate)
      ensures buckets == old(buckets)
    {
      NumberFromNumber(sdk);
      appTargetSdk := Some(FromNumber(sdk));
    }

    /** `total_vulnerabilities`: every finding except the warnings. */
    function TotalVulnerabilities(): nat
      reads this
    {
      |Bucket(Low)| + |Bucket(Medium)| + |Bucket(High)| + |Bucket(Critical)|
    }

    /**
      * `add_vulnerability`: inserts the finding into the bucket of its criticality and
      * touches no other bucket; inserting a finding already there changes nothing. The
      * total grows by one exactly for a new finding that is not a warning.
      */
    method AddVulnerability(v: Vulnerability)
      requires Valid()
      modifies this
      ensures Valid()
      ensures Bucket(v.criticality) == old(Bucket(v.criticality)) + {v}
      ensures forall c: Criticality :: c != v.criticality ==> Bucket(c) == old(Bucket(c))
      ensures v in old(Bucket(v.criticality)) ==> Bucket(v.criticality) == old(Bucket(v.criticality))
      ensures TotalVulnerabilities() ==
        old(TotalVulnerabilities()) + (if v.criticality == Warning || v in old(Bucket(v.criticality)) then 0 else 1)
      ensures appPackage == old(appPackage) && appLabel == old(appLabel)
      ensures appDescription == old(appDescription) && appVersion == old(appVersion)
      ensures appVersionNum == old(appVersionNum) && appMinSdk == old(appMinSdk)
      ensures appTargetSdk == old(appTargetSdk) && certificate == old(certificate)
      ensures Info() == old(Info())
      ensures forall d: Criticality ::
        BucketOf(buckets, d) == if d == v.criticality then BucketOf(old(buckets), d) + {v} else BucketOf(old(buckets), d)
    {
      var c := v.criticality;
      InsertCard(Bucket(c), v);
      buckets := buckets[c := Bucket(c) + {v}];
      assert forall d: Criticality :: Bucket(d) == if d == c then old(Bucket(c)) + {v} else old(Bucket(d));
    }

    /** The keys `Serialize` emits, in order; `withCertificate` is the `certificate` feature. */
    function SerializedKeys(withCertificate: bool): seq<string>
      reads this
    {
      ["super_version", "now", "now_rfc2822", "now_rfc3339",
       "app_package", "app_version", "app_version_number", "app_fingerprint"]
      + (if withCertificate then ["certificate"] else [])
      + ["app_min_sdk_number", "app_min_sdk_name"]
      + (if VersionOf(appMinSdk).Some? then ["app_min_sdk_version"] else [])
      + (match appTargetSdk
         case None => []
         case Some(sdk) =>
           ["app_target_sdk_number", "app_target_sdk_name"]
           + (if VersionOf(sdk).Some? then ["app_target_sdk_version"] else []))
      + ["total_vulnerabilities", "criticals", "criticals_len", "highs", "highs_len",
         "mediums", "mediums_len", "lows", "lows_len", "warnings", "warnings_len"]
    }

    /**
      * The field count announced to `serialize_struct`, counted up from 21 as the source
      * does; it equals the number of fields actually emitted.
      */
    method SerializedLength(withCertificate: bool) returns (len: nat)
      ensures len == |SerializedKeys(withCertificate)|
      ensures 21 <= len <= 26
    {
      len := 21;
      if withCertificate {
        len := len + 1;
      }
      if VersionOf(appMinSdk).Some? {
        len := len + 1;
      }
      if appTargetSdk.Some? {
        if VersionOf(appTargetSdk.value).Some? {
          len := len + 3;
        } else {
          len := len + 2;
        }
      }
    }
  }

  /** Inserting into a set adds one element exactly when it was absent. */
  lemma InsertCard<T>(s: set<T>, x: T)
    ensures |s + {x}| == |s| + (if x in s then 0 else 1)
    ensures x in s ==> s + {x} == s
  {
  }
}
