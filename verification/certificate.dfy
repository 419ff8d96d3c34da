/**
  * The certificate analysis: every `.RSA` or `.DSA` file under `original/META-INF/` is
  * printed by `openssl pkcs7 -print_certs -text`, and the printed issuer and expiry date
  * decide two findings: a certificate issued by the Android debug authority, and an
  * expired certificate.
  *
  * Running `openssl` and reading the clock are not part of this model: the text `openssl`
  * prints for a file (`None` where it cannot be run or reports an error, which ends the
  * program) and today's date are given. The text is taken as already decoded.
  */
module CertificateAnalysis {
  import opened Common
  import opened Criticalities
  import opened Vulnerabilities
  import opened ResultsStore
  import Text
  import Paths
  import L = ManifestLoading
  import CodeAnalysis

  // ----- Dates -----

  /** The three-letter month names `openssl` prints, in calendar order. */
  const MonthNames: seq<string> := ["Jan", "Feb", "Mar", "Apr", "May", "Jun", "Jul", "Aug", "Sep", "Oct", "Nov", "Dec"]

  /** `parse_month`: the number of a month name, from 1 to 12; 0 for any other text. */
  function ParseMonth(s: string): (n: nat)
    ensures n <= 12
  {
    if s == "Jan" then 1
    else if s == "Feb" then 2
    else if s == "Mar" then 3
    else if s == "Apr" then 4
    else if s == "May" then 5
    else if s == "Jun" then 6
    else if s == "Jul" then 7
    else if s == "Aug" then 8
    else if s == "Sep" then 9
    else if s == "Oct" then 10
    else if s == "Nov" then 11
    else if s == "Dec" then 12
    else 0
  }

  /** The month names are read as their position in the calendar, and nothing else is a month. */
  lemma ParseMonthNames(s: string)
    ensures forall k :: 0 <= k < 12 ==> ParseMonth(MonthNames[k]) == k + 1
    ensures ParseMonth(s) == 0 <==> s !in MonthNames
    ensures ParseMonth(s) != 0 ==> MonthNames[ParseMonth(s) - 1] == s
  {
  }

  /** A calendar date as the analysis compares it. */
  datatype Date = Date(year: int, month: nat, day: nat)

  /**
    * The expiry test: `today` comes after the last day `notAfter` of validity, comparing
    * the year, then the month, then the day.
    */
  predicate Later(today: Date, notAfter: Date) {
    today.year > notAfter.year
    || (today.year == notAfter.year && today.month > notAfter.month)
    || (today.year == notAfter.year && today.month == notAfter.month && today.day > notAfter.day)
  }

  /** A date as one number, the year counting most and the day least, for months and days below 100. */
  function DateKey(d: Date): int {
    d.year * 10000 + d.month * 100 + d.day
  }

  /**
    * The test is a strict total order on dates: never true of a date and itself,
    * transitive, and for two different dates true in exactly one direction. For the
    * months and days a calendar has, it is the order of the numbers `yyyymmdd`.
    */
  lemma {:induction false} LaterIsStrictOrder(a: Date, b: Date, c: Date)
    ensures !Later(a, a)
    ensures Later(a, b) && Later(b, c) ==> Later(a, c)
    ensures a != b ==> (Later(a, b) <==> !Later(b, a))
    ensures a.month < 100 && a.day < 100 && b.month < 100 && b.day < 100 ==> (Later(a, b) <==> DateKey(a) > DateKey(b))
  {
  }

  /** `str::parse::<i32>()`: an optional sign, then at least one digit, within the range of `i32`. */
  function ParseI32(s: string): (r: Option<int>)
    ensures r.Some? ==> -0x8000_0000 <= r.value < 0x8000_0000
  {
    if |s| > 0 && s[0] == '-' then
      var digits := s[1..];
      if |digits| > 0 && Text.AllDigits(digits) && Text.DigitsValue(digits) <= 0x8000_0000 then
        var value: int := 0 - Text.DigitsValue(digits) as int;
        Some(value)
      else None
    else
      match Text.ParseUnsigned(s, 0x7FFF_FFFF)
      case Some(n) => Some(n)
      case None => None
  }

  /**
    * The last day of validity as the analysis reads it from the text after `Not After : `:
    * the year from characters 16 to 19, the month from the first three, the day from
    * characters 4 and 5, or from character 5 alone when those two are not a number (a
    * day below 10 is printed after a space). A text too short for the year, or a year or
    * day that is not a number, panics; an unknown month is month 0.
    */
  function NotAfter(after: string): (r: Option<Date>)
    ensures r.Some? ==> |after| >= 20 && r.value.month <= 12
  {
    if |after| < 20 then None
    else
      match ParseI32(after[16..20])
      case None => None
      case Some(year) =>
        var month := ParseMonth(after[0..3]);
        match Text.ParseU32(after[4..6])
        case Some(day) => Some(Date(year, month, day))
        case None =>
          match Text.ParseU32(after[5..6])
          case Some(day) => Some(Date(year, month, day))
          case None => None
  }

  /** The day as `openssl` prints it: two characters, a space before a single digit. */
  function DayText(day: nat): (s: string)
    requires 1 <= day <= 31
    ensures |s| == 2
  {
    if day < 10 then [' ', Text.DigitChar(day)] else [Text.DigitChar(day / 10), Text.DigitChar(day % 10)]
  }

  /** The decimal form of a four-digit number has four characters. */
  lemma FourDigits(n: nat)
    requires 1000 <= n <= 9999
    ensures |Text.NatToString(n)| == 4
  {
    assert |Text.NatToString(n / 1000)| == 1;
    assert |Text.NatToString(n / 100)| == 2;
    assert |Text.NatToString(n / 10)| == 3;
  }

  /** Two digits read back as their number. */
  lemma TwoDigits(day: nat)
    requires 10 <= day <= 31
    ensures Text.ParseU32(DayText(day)) == Some(day)
  {
    var s := DayText(day);
    assert s[..1] == [Text.DigitChar(day / 10)];
    assert Text.DigitsValue(s[..1]) == day / 10;
  }

  /** The not-after date as `openssl` prints it, in the form `Mmm dd hh:mm:ss yyyy GMT`. */
  function Printed(d: Date, time: string): string
    requires 1 <= d.month <= 12 && 1 <= d.day <= 31 && 1000 <= d.year <= 9999
  {
    MonthNames[d.month - 1] + " " + DayText(d.day) + " " + time + " " + Text.NatToString(d.year) + " GMT"
  }

  /** A date `openssl` prints with a four-digit year is read back as that date, for one-digit and two-digit days alike. */
  lemma NotAfterReadsPrinted(d: Date, time: string)
    requires 1 <= d.month <= 12 && 1 <= d.day <= 31 && 1000 <= d.year <= 9999 && |time| == 8
    ensures NotAfter(Printed(d, time)) == Some(d)
  {
    PrintedSlices(d, time);
    YearReadsBack(d.year);
    ParseMonthNames(MonthNames[d.month - 1]);
    if d.day < 10 {
      OneDigitDay(d.day);
    } else {
      TwoDigits(d.day);
    }
  }

  /** Where the fields of a printed date sit. */
  lemma PrintedSlices(d: Date, time: string)
    requires 1 <= d.month <= 12 && 1 <= d.day <= 31 && 1000 <= d.year <= 9999 && |time| == 8
    ensures var s := Printed(d, time);
      |s| >= 20 && s[0..3] == MonthNames[d.month - 1] && s[4..6] == DayText(d.day)
      && s[5..6] == DayText(d.day)[1..] && s[16..20] == Text.NatToString(d.year)
  {
    var s := Printed(d, time);
    var m := MonthNames[d.month - 1];
    FourDigits(d.year);
    assert |m| == 3;
    assert s == m + " " + DayText(d.day) + " " + time + " " + Text.NatToString(d.year) + " GMT";
  }

  /** A four-digit year reads back as itself. */
  lemma YearReadsBack(year: nat)
    requires 1000 <= year <= 9999
    ensures ParseI32(Text.NatToString(year)) == Some(year)
  {
    var y := Text.NatToString(year);
    Text.ParseUnsignedPrinted(year, 0x7FFF_FFFF);
    assert y[0] != '-' by { assert Text.IsDigit(y[0]); }
  }

  /** A one-digit day is not a number with its space, and reads back without it. */
  lemma OneDigitDay(day: nat)
    requires 1 <= day < 10
    ensures Text.ParseU32(DayText(day)) == None && Text.ParseU32(DayText(day)[1..]) == Some(day)
  {
    assert DayText(day)[0] == ' ';
    assert !Text.IsDigit(' ');
    assert DayText(day)[1..] == [Text.DigitChar(day)];
    assert Text.DigitsValue(DayText(day)[1..][..0]) == 0;
  }

  // ----- The printed certificate -----

  lemma SliceOfTail(s: string, n: nat, j: int)
    requires 1 <= j <= |s| - n
    ensures s[j..j + n] == s[1..][j - 1..j - 1 + n]
  {
    var t := s[1..];
    var a, b := s[j..j + n], t[j - 1..j - 1 + n];
    assert |a| == n == |b|;
    forall k | 0 <= k < n
      ensures a[k] == b[k]
    {
      assert t[j - 1 + k] == s[j + k];
    }
  }

  /** An occurrence past the first character is an occurrence in the rest. */
  lemma OccursShift(s: string, pat: string)
    requires |s| > 0
    ensures forall j :: 1 <= j ==> (Text.OccursAt(s, pat, j) <==> Text.OccursAt(s[1..], pat, j - 1))
  {
    forall j | 1 <= j
      ensures Text.OccursAt(s, pat, j) <==> Text.OccursAt(s[1..], pat, j - 1)
    {
      if j <= |s| - |pat| {
        SliceOfTail(s, |pat|, j);
      }
    }
  }

  /** The position of the first occurrence of `pat` in `s`, if any. */
  function Find(s: string, pat: string): (r: Option<nat>)
    ensures r.Some? ==> Text.OccursAt(s, pat, r.value)
    ensures r.Some? ==> forall j :: 0 <= j < r.value ==> !Text.OccursAt(s, pat, j)
    ensures r.None? ==> forall j :: 0 <= j <= |s| - |pat| ==> !Text.OccursAt(s, pat, j)
    decreases |s|
  {
    if |s| < |pat| then None
    else if s[..|pat|] == pat then Some(0)
    else
      OccursShift(s, pat);
      match Find(s[1..], pat)
      case None => None
      case Some(i) => Some(i + 1)
  }

  /** A text cut before the first occurrence of `pat` does not contain it. */
  lemma CutBeforeFirst(s: string, pat: string, j: nat)
    requires j <= |s| && |pat| > 0
    requires forall k :: 0 <= k < j ==> !Text.OccursAt(s, pat, k)
    ensures !Text.Contains(s[..j], pat)
  {
    forall k | 0 <= k <= |s[..j]| - |pat|
      ensures !Text.OccursAt(s[..j], pat, k)
    {
      assert !Text.OccursAt(s, pat, k);
      assert s[..j][k..k + |pat|] == s[k..k + |pat|];
    }
  }

  /** The separator of the printed fields. */
  const Separator: string := ": "

  /**
    * `line.split(": ").nth(1)`: the text between the first separator and the next one, or
    * to the end of the line; nothing when the line has no separator.
    */
  function SecondField(line: string): (r: Option<string>)
    ensures r.Some? <==> Text.Contains(line, Separator)
    ensures r.Some? ==> !Text.Contains(r.value, Separator)
  {
    match Find(line, Separator)
    case None => None
    case Some(i) =>
      var rest := line[i + 2..];
      match Find(rest, Separator)
      case None => Some(rest)
      case Some(j) =>
        CutBeforeFirst(rest, Separator, j);
        Some(rest[..j])
  }

  /** The last line that contains `key`, or the empty text when none does. */
  function LastWith(lines: seq<string>, key: string): string {
    if lines == [] then ""
    else if Text.Contains(lines[|lines| - 1], key) then lines[|lines| - 1]
    else LastWith(lines[..|lines| - 1], key)
  }

  /** The line `i` contains `key` and no later line does. */
  predicate LastLineWith(lines: seq<string>, key: string, i: int) {
    0 <= i < |lines| && Text.Contains(lines[i], key)
    && forall j :: i < j < |lines| ==> !Text.Contains(lines[j], key)
  }

  /**
    * What the loop keeps for a key is the last line that contains it, and it is empty
    * exactly when no line does.
    */
  lemma {:induction false} LastWithIsLast(lines: seq<string>, key: string)
    requires |key| > 0
    ensures LastWith(lines, key) == "" ==> forall j :: 0 <= j < |lines| ==> !Text.Contains(lines[j], key)
    ensures LastWith(lines, key) != "" ==> exists i :: LastLineWith(lines, key, i) && lines[i] == LastWith(lines, key)
    decreases |lines|
  {
    if lines != [] {
      var n := |lines| - 1;
      var init := lines[..n];
      if Text.Contains(lines[n], key) {
        var k :| 0 <= k <= |lines[n]| - |key| && Text.OccursAt(lines[n], key, k);
        assert lines[n] != "";
        assert LastLineWith(lines, key, n);
      } else {
        LastWithIsLast(init, key);
        if LastWith(lines, key) != "" {
          var i :| LastLineWith(init, key, i) && init[i] == LastWith(init, key);
          assert LastLineWith(lines, key, i);
        }
      }
    }
  }

  /** The three lines the loop keeps: the last issuer, subject and expiry lines. */
  datatype Kept = Kept(issuer: string, subject: string, after: string)

  const IssuerKey: string := "Issuer:"
  const SubjectKey: string := "Subject:"
  const AfterKey: string := "Not After :"

  /** The lines kept after the first `lines`. */
  function KeptLines(lines: seq<string>): Kept {
    Kept(LastWith(lines, IssuerKey), LastWith(lines, SubjectKey), LastWith(lines, AfterKey))
  }

  /** The loop over the printed lines, each key's line overwritten by every later line that has it. */
  method ScanLines(lines: seq<string>) returns (issuer: string, subject: string, after: string)
    ensures Kept(issuer, subject, after) == KeptLines(lines)
  {
    issuer, subject, after := "", "", "";
    for i := 0 to |lines|
      invariant Kept(issuer, subject, after) == KeptLines(lines[..i])
    {
      var line := lines[i];
      SlicePrefix(lines, i + 1, i);
      if Text.Contains(line, IssuerKey) {
        issuer := line;
      }
      if Text.Contains(line, SubjectKey) {
        subject := line;
      }
      if Text.Contains(line, AfterKey) {
        after := line;
      }
    }
    WholeSlice(lines);
  }

  // ----- Findings -----

  /** The texts of the two findings. */
  datatype CertificateTexts = CertificateTexts(debugName: string, debugDescription: string,
    expiredName: string, expiredDescription: string)

  /** The names and descriptions `certificate_analysis` gives its two findings. */
  const SourceCertificateTexts := CertificateTexts(
    "Android Debug Certificate",
    "The application is signed with the Android Debug Certificate. This certificate should never be used for publishing an app.",
    "Expired certificate",
    "The certificate of the application has expired. You should not use applications with expired certificates since the app is not secure anymore.")

  /** The finding for a certificate issued by the Android debug authority. */
  function DebugFinding(texts: CertificateTexts): (v: Vulnerability)
    ensures v.criticality == Critical && v.file.None? && v.startLine.None? && v.code.None?
  {
    Vulnerability(Critical, texts.debugName, texts.debugDescription, None, None, None, None)
  }

  /** The finding for an expired certificate. */
  function ExpiredFinding(texts: CertificateTexts): (v: Vulnerability)
    ensures v.criticality == High && v.file.None? && v.startLine.None? && v.code.None?
  {
    Vulnerability(High, texts.expiredName, texts.expiredDescription, None, None, None, None)
  }

  /** What the analysis of one printed certificate adds, and whether it ends without a panic. */
  datatype CertificateResult = CertificateResult(found: seq<Vulnerability>, ok: bool)

  /** The issuer text marks a debug certificate. */
  predicate DebugIssuer(issuer: string) {
    Text.Contains(issuer, "Android Debug")
  }

  /**
    * One printed certificate read on `today`: a panic when the kept issuer line has no
    * separator; the debug finding when the issuer is the debug authority; then a panic
    * when the expiry date cannot be read, or the expired finding when it is past.
    */
  function CertificateFindings(printed: string, today: Date, texts: CertificateTexts): CertificateResult {
    var kept := KeptLines(Text.Lines(printed));
    FieldFindings(SecondField(kept.issuer), SecondField(kept.after), today, texts)
  }

  /** The findings from the issuer and expiry fields, each `None` where its line has no separator. */
  function FieldFindings(issuer: Option<string>, after: Option<string>, today: Date, texts: CertificateTexts): CertificateResult {
    match issuer
    case None => CertificateResult([], false)
    case Some(issuer) =>
      var debug := if DebugIssuer(issuer) then [DebugFinding(texts)] else [];
      match after
      case None => CertificateResult(debug, false)
      case Some(after) =>
        match NotAfter(after)
        case None => CertificateResult(debug, false)
        case Some(date) => CertificateResult(debug + (if Later(today, date) then [ExpiredFinding(texts)] else []), true)
  }

  /**
    * Once the issuer and the expiry date are read, the debug finding is reported exactly
    * when the issuer names the debug authority, and the expired finding exactly when
    * today is past the expiry date; nothing else is.
    */
  lemma CertificateFindingsCases(printed: string, today: Date, texts: CertificateTexts, issuer: string, date: Date)
    requires texts.debugName != texts.expiredName
    requires SecondField(KeptLines(Text.Lines(printed)).issuer) == Some(issuer)
    requires SecondField(KeptLines(Text.Lines(printed)).after).Some?
    requires NotAfter(SecondField(KeptLines(Text.Lines(printed)).after).value) == Some(date)
    ensures CertificateFindings(printed, today, texts).ok
    ensures DebugFinding(texts) in CertificateFindings(printed, today, texts).found <==> DebugIssuer(issuer)
    ensures ExpiredFinding(texts) in CertificateFindings(printed, today, texts).found <==> Later(today, date)
    ensures |CertificateFindings(printed, today, texts).found| <= 2
  {
  }

  /** A printed certificate gives the debug finding, the expired finding, or neither. */
  lemma CertificateFindingsAre(printed: string, today: Date, texts: CertificateTexts)
    ensures forall v :: v in CertificateFindings(printed, today, texts).found ==>
      v == DebugFinding(texts) || v == ExpiredFinding(texts)
  {
  }

  /** `add_vulnerability` for a finding of the certificate analysis. */
  method ReportFinding(results: Results, v: Vulnerability, ghost b0: map<Criticality, set<Vulnerability>>,
    ghost found: seq<Vulnerability>)
    requires results.Valid() && Extended(b0, results.buckets, found)
    modifies results
    ensures results.Valid() && results.Info() == old(results.Info())
    ensures Extended(b0, results.buckets, found + [v])
  {
    L.Report(results, v, b0, found);
  }

  /** The analysis of one printed certificate; `ok` is false where the source panics. */
  method AnalyzeCertificate(printed: string, today: Date, texts: CertificateTexts, results: Results) returns (ok: bool)
    requires results.Valid()
    modifies results
    ensures ok == CertificateFindings(printed, today, texts).ok
    ensures results.Valid() && results.Info() == old(results.Info())
    ensures Extended(old(results.buckets), results.buckets, CertificateFindings(printed, today, texts).found)
  {
    var issuerLine, subjectLine, afterLine := ScanLines(Text.Lines(printed));
    ok := ReportFields(SecondField(issuerLine), SecondField(afterLine), today, texts, results);
  }

  /**
    * The fields read: the issuer's is unwrapped (a panic when missing) and decides the
    * debug finding; then the expiry field is unwrapped and read, and decides the expired
    * finding.
    */
  method ReportFields(issuer: Option<string>, after: Option<string>, today: Date, texts: CertificateTexts,
    results: Results) returns (ok: bool)
    requires results.Valid()
    modifies results
    ensures ok == FieldFindings(issuer, after, today, texts).ok
    ensures results.Valid() && results.Info() == old(results.Info())
    ensures Extended(old(results.buckets), results.buckets, FieldFindings(issuer, after, today, texts).found)
  {
    ghost var b0 := results.buckets;
    ExtendedNothing(b0);
    if issuer.None? {
      return false;
    }
    ghost var debug: seq<Vulnerability> := [];
    if DebugIssuer(issuer.value) {
      ReportFinding(results, DebugFinding(texts), b0, []);
      debug := [DebugFinding(texts)];
    }
    // The issuer and subject fields are compared next, to no effect.
    if after.None? {
      return false;
    }
    var date := NotAfter(after.value);
    if date.None? {
      return false;
    }
    if Later(today, date.value) {
      ReportFinding(results, ExpiredFinding(texts), b0, debug);
    } else {
      assert debug + [] == debug;
    }
    return true;
  }

  // ----- The certificate files -----

  /**
    * How the analysis of the certificate files ended: normally, at an unreadable entry
    * (which also ends it normally), with the directory unreadable, with the program
    * exiting because `openssl` failed, or with a panic.
    */
  datatype Outcome = Finished | Interrupted | Failed | Exited | Panicked

  /** The findings added so far, and how the walk ended. */
  datatype CertificateScan = CertificateScan(found: seq<Vulnerability>, outcome: Outcome)

  /** A file is a certificate when its extension is `RSA` or `DSA`. */
  predicate IsCertificate(name: string) {
    var ext := Paths.ExtensionOfName(name);
    ext == Some("RSA") || ext == Some("DSA")
  }

  /**
    * One entry of `META-INF`, whatever its kind: an unreadable entry ends the loop; a
    * certificate is printed and analysed; anything else is passed over.
    */
  function EntryStep(dir: string, e: CodeAnalysis.Entry, openssl: string -> Option<string>, today: Date,
    texts: CertificateTexts): CertificateScan
  {
    if e.BrokenEntry? then CertificateScan([], Interrupted)
    else if !IsCertificate(e.name) then CertificateScan([], Finished)
    else
      match openssl(dir + e.name)
      case None => CertificateScan([], Exited)
      case Some(printed) =>
        var r := CertificateFindings(printed, today, texts);
        CertificateScan(r.found, if r.ok then Finished else Panicked)
  }

  /** The loop over the entries of `META-INF`, which stops at the first step that does not finish. */
  function EntriesScan(dir: string, es: seq<CodeAnalysis.Entry>, openssl: string -> Option<string>, today: Date,
    texts: CertificateTexts): CertificateScan
  {
    if es == [] then CertificateScan([], Finished)
    else
      var before := EntriesScan(dir, es[..|es| - 1], openssl, today, texts);
      if before.outcome != Finished then before
      else
        var step := EntryStep(dir, es[|es| - 1], openssl, today, texts);
        CertificateScan(before.found + step.found, step.outcome)
  }

  /** `certificate_analysis` on the `META-INF` directory at `dir`, whose listing is `listing`. */
  function CertificatesScan(dir: string, listing: CodeAnalysis.Listing, openssl: string -> Option<string>, today: Date,
    texts: CertificateTexts): CertificateScan
  {
    match listing
    case Unlistable => CertificateScan([], Failed)
    case Listing(es) => EntriesScan(dir, es, openssl, today, texts)
  }

  /** Once the loop has stopped, further entries change nothing. */
  lemma {:induction false} EntriesScanAfterStop(dir: string, es: seq<CodeAnalysis.Entry>, rest: seq<CodeAnalysis.Entry>,
    openssl: string -> Option<string>, today: Date, texts: CertificateTexts)
    requires EntriesScan(dir, es, openssl, today, texts).outcome != Finished
    ensures EntriesScan(dir, es + rest, openssl, today, texts) == EntriesScan(dir, es, openssl, today, texts)
    decreases |rest|
  {
    if rest == [] {
      assert es + rest == es;
    } else {
      assert (es + rest)[..|es + rest| - 1] == es + rest[..|rest| - 1];
      EntriesScanAfterStop(dir, es, rest[..|rest| - 1], openssl, today, texts);
    }
  }

  lemma EntriesScanNext(dir: string, es: seq<CodeAnalysis.Entry>, i: nat, openssl: string -> Option<string>, today: Date,
    texts: CertificateTexts)
    requires i < |es| && EntriesScan(dir, es[..i], openssl, today, texts).outcome == Finished
    ensures EntriesScan(dir, es[..i + 1], openssl, today, texts).found ==
      EntriesScan(dir, es[..i], openssl, today, texts).found + EntryStep(dir, es[i], openssl, today, texts).found
    ensures EntriesScan(dir, es[..i + 1], openssl, today, texts).outcome == EntryStep(dir, es[i], openssl, today, texts).outcome
  {
    SlicePrefix(es, i + 1, i);
  }

  /** One entry of `META-INF`. */
  method AnalyzeEntry(dir: string, e: CodeAnalysis.Entry, openssl: string -> Option<string>, today: Date,
    texts: CertificateTexts, results: Results) returns (outcome: Outcome)
    requires results.Valid()
    modifies results
    ensures results.Valid() && results.Info() == old(results.Info())
    ensures outcome == EntryStep(dir, e, openssl, today, texts).outcome
    ensures Extended(old(results.buckets), results.buckets, EntryStep(dir, e, openssl, today, texts).found)
  {
    ExtendedNothing(results.buckets);
    if e.BrokenEntry? {
      return Interrupted;
    }
    if !IsCertificate(e.name) {
      return Finished;
    }
    var printed := openssl(dir + e.name);
    if printed.None? {
      return Exited;
    }
    var ok := AnalyzeCertificate(printed.value, today, texts, results);
    outcome := if ok then Finished else Panicked;
  }

  /**
    * `certificate_analysis`: an unreadable `META-INF` is an error; otherwise its entries
    * are analysed in order until one cannot be read, `openssl` fails or the analysis
    * panics. What was added before stays in the results.
    */
  method AnalyzeCertificates(dir: string, listing: CodeAnalysis.Listing, openssl: string -> Option<string>, today: Date,
    results: Results) returns (outcome: Outcome)
    requires results.Valid()
    modifies results
    ensures results.Valid() && results.Info() == old(results.Info())
    ensures outcome == CertificatesScan(dir, listing, openssl, today, SourceCertificateTexts).outcome
    ensures Extended(old(results.buckets), results.buckets, CertificatesScan(dir, listing, openssl, today, SourceCertificateTexts).found)
  {
    ghost var b0 := results.buckets;
    ExtendedNothing(b0);
    if listing.Unlistable? {
      return Failed;
    }
    var es := listing.entries;
    for i := 0 to |es|
      invariant results.Valid() && results.Info() == old(results.Info())
      invariant EntriesScan(dir, es[..i], openssl, today, SourceCertificateTexts).outcome == Finished
      invariant Extended(b0, results.buckets, EntriesScan(dir, es[..i], openssl, today, SourceCertificateTexts).found)
    {
      ghost var before := EntriesScan(dir, es[..i], openssl, today, SourceCertificateTexts).found;
      ghost var b1 := results.buckets;
      var step := AnalyzeEntry(dir, es[i], openssl, today, SourceCertificateTexts, results);
      ExtendedTrans(b0, b1, results.buckets, before, EntryStep(dir, es[i], openssl, today, SourceCertificateTexts).found);
      EntriesScanNext(dir, es, i, openssl, today, SourceCertificateTexts);
      if step != Finished {
        EntriesScanAfterStop(dir, es[..i + 1], es[i + 1..], openssl, today, SourceCertificateTexts);
        SplitAt(es, i + 1);
        return step;
      }
    }
    WholeSlice(es);
    return Finished;
  }

  /** Every finding of the certificate analysis is the debug finding or the expired one. */
  lemma {:induction false} EntriesScanFindings(dir: string, es: seq<CodeAnalysis.Entry>, openssl: string -> Option<string>,
    today: Date, texts: CertificateTexts)
    ensures forall v :: v in EntriesScan(dir, es, openssl, today, texts).found ==>
      v == DebugFinding(texts) || v == ExpiredFinding(texts)
    decreases |es|
  {
    if es != [] {
      EntriesScanFindings(dir, es[..|es| - 1], openssl, today, texts);
      var e := es[|es| - 1];
      if !e.BrokenEntry? && IsCertificate(e.name) && openssl(dir + e.name).Some? {
        CertificateFindingsAre(openssl(dir + e.name).value, today, texts);
      }
    }
  }
}
