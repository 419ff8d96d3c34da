# SUPER Android analyzer — a verified Dafny model of its core

SUPER (Secure, Unified, Powerful and Extensible Rust Android Analyzer) decompiles an
Android APK and audits it: it reads `AndroidManifest.xml`, scans the decompiled Java and
XML sources with a set of regular-expression rules, looks for suspicious strings in the
native `.so` libraries and checks the signing certificate, then collects every finding in
a `Results` store that is rendered as HTML (through Handlebars helpers) or JSON.

This project models the deterministic, sequential logic between the external tools and
the final report, module by module:

| Dafny module | file | what it models |
|---|---|---|
| `Criticalities` | criticality.dfy | the `Criticality` order (`Warning < Low < Medium < High < Critical`), its case-insensitive parse and lower-case print |
| `ErrorCodes` | error_codes.dfy | the exit code of each error kind |
| `SdkVersions` | sdk_version.dfy | the old `SDKVersion` release groups, their level and display |
| `SdkNumbers` | sdk_number.dfy | `SdkNumber`: level conversions, versions, names, the derived order and `prettify_android_version` |
| `SdkNumbersOld` | sdk_number_old.dfy | the old `SDKNumber` table and `as_str` |
| `Permissions` | permission.dfy | the 258-entry `Permission` table: `as_str`, `try_from`, `from_str`, deserialization |
| `PermissionChecklists` | permission_checklist.dfy | `PermissionChecklist`, a class holding the set of permissions asked for |
| `Vulnerabilities` | vulnerability.dfy | `Vulnerability`: its two orderings and its serialized shape |
| `ResultsStore` | results.dfy | `Results`: the identity setters, the criticality buckets and the serialized length |
| `ResultsOld` | results_old.dfy | the old `Results` and `Vulnerability::partial_cmp` |
| `Snippets` | snippet.dfy | `get_code`, the code window shown around a finding |
| `Html` | html.dfy | `split_indent` and `html_escape` |
| `JsonValues` | json.dfy | the JSON values the serializers produce and the template helpers read |
| `HandlebarsHelpers` | handlebars.dfy | the `line_numbers`, `all_lines`, `all_code`, `html_code` and `generate_menu` helpers |
| `Configs` | config.dfy | `Config`: defaults, command-line options, force and format state, package paths, checks, TOML value readers |
| `CodeRules` | rule.dfy | `Rule::has_to_check` and `load_rules` |
| `CodeAnalysis` | code_analysis.dfy | the code analysis: `get_line_for`, the rule gating and match loop of `analyze_file`, the file collection of `add_files_to_vec`, the worker loop, and the older `code.rs` |
| `BinaryAnalysis` | binary.dfy | the string table of a `.so` section, `generate_code` and the rule scan of `analyze_lib` |
| `CertificateAnalysis` | certificate.dfy | `parse_month`, the expiry test, and the debug-issuer and expiry findings |
| `Manifests` | manifest.dfy | `InstallLocation`, `get_line`, the attribute handlers of each element, the exported-component and unknown-permission rules, and the finding rules of `analysis`, as functions |
| `ManifestLoading` | manifest_load.dfy | the `Manifest` class, its setters, the handler loops, `load` and `analysis` as methods proved against `Manifests` |
| `ManifestOld` | manifest_old.dfy | the older `manifest.rs`, related to the newer module |
| `Text`, `Paths`, `Common` | text.dfy, paths.dfy, common.dfy | helpers standing for the Rust standard library (`str::lines`, `contains`, `parse`, `Path` joining and extensions) and sequence lemmas; they model no SUPER code and so have no rows below |

The external world becomes parameters: the file contents, directory listings, the XML
reader's events, the ELF sections, the `openssl` output, today's date, the string resources
of the application and the compiled regular expressions (abstract values with `find_iter`
and `captures` given as functions). Where the newer and the older revision of a file both
exist, the newer one is modelled and the older one's differences are stated against it.

Where the documented behaviour and the code differ, the model follows the code:

- `add_files_to_vec` skips a directory named `original` at every level of the walk, not
  only at the top (src/static_analysis/code/mod.rs:291-298).
- In `has_to_check`, an exclude expression alone decides the answer when it is set, even
  when an include expression does not select the file (src/static_analysis/code/rule.rs:80-96).
- The `has_to_check` unit tests in `rule.rs` sit under `#[cfg(tests)]`, a feature that is
  never set, so they are never compiled; the model states them as lemmas all the same.
- The newer code analysis holds its file-queue lock for the whole body of each worker's
  loop, so files are analysed one at a time whatever the thread count.

The model departs from the code in one place, on purpose: the snippet of a code-analysis
finding (`CodeAnalysis.FindingSnippet`) is the corrected window of the first row under
Findings, not `get_code`'s text as written. The two agree whenever the match starts at
line 5 or later or lies on one line; manifest findings always lie on one line and use
`get_code` as written.

## Model

| member | source | states |
|---|---|---|
| Criticalities.TotalOrder | src/criticality.rs:11-24 | the derived order is total, antisymmetric and transitive, and runs Warning < Low < Medium < High < Critical, with Warning least and Critical greatest |
| Criticalities.FromStr | src/criticality.rs:33-44 | parsing succeeds exactly when the lower-cased input is one of the five names, and the result then prints as the lower-cased input; any other text is an error |
| Criticalities.ToStringIsLower | src/criticality.rs:26-31 | the printed name is already in lower case |
| Criticalities.FromStrToString | src/criticality.rs:26-44 | printing a criticality and parsing the text gives it back |
| Criticalities.FromStrIgnoresCase | src/criticality.rs:36 | two texts equal once lower-cased parse to the same result |
| Criticalities.FromStrExamples | src/lib.rs:345-390 | "CRITICAL", "Medium" and "WaRnInG" parse to their criticality; "crit" is rejected |
| ErrorCodes.ExitCodesDistinguishKinds | src/error.rs:35-51 | every exit code is positive; TemplateName < Template < TemplateRender; two kinds share a code only when both are Parse or TOML |
| SdkVersions.FromToLevel | src/sdk_version.rs:26-68 | converting a release to its level and back gives the same release |
| SdkVersions.LevelGroups | src/sdk_version.rs:26-68 | a level maps to Unknown exactly when it is 0, 20 or above 26; a known release's own level is the highest level of its group, and every level between maps to the same release |
| SdkVersions.Display | src/sdk_version.rs:70-80 | the display text is the release name, then " (", then more text, then a final ")" |
| SdkVersions.DisplayReadsBack | src/sdk_version.rs:70-80 | the digits between " (" and ")" parse as `u32::from(v)`, the release's highest level, and that level converts back to the same release |
| SdkVersions.DisplayJellyBean | src/sdk_version.rs:70-80 | JellyBean displays as "Jelly Bean (18)" |
| SdkVersions.DisplayLevel24 | src/sdk_version.rs:26-80 | level 24 displays as "Nougat (25)", the group's highest level |
| SdkVersions.DisplayLevel20 | src/sdk_version.rs:26-80 | level 20 displays as "Unknown (0)" |
| SdkNumbers.NumberFromNumber | src/results/sdk_number.rs:72-104 | every u32 level converted to a variant and back is the same level; the variant is Unknown exactly for levels outside 1..=26 other than 10000, and Development exactly for 10000 |
| SdkNumbers.FromNumberNumber | src/results/sdk_number.rs:72-104 | every variant but Unknown is recovered from its level; Unknown(v) is recovered exactly when v has no variant of its own |
| SdkNumbers.RankOfLevel | src/results/sdk_number.rs:6-65 | the variant of level n (1..=26) sits at declaration position n - 1 |
| SdkNumbers.OrderFollowsLevel | src/results/sdk_number.rs:6-65 | for 1 <= a < b <= 26 the derived order puts from(a) before from(b), and every API level before Development, which comes before Unknown |
| SdkNumbers.VersionAbsent | src/results/sdk_number.rs:107-292 | a variant has no release version exactly when it is Development or Unknown; a version has at most one build identifier |
| SdkNumbers.NamesShared | src/results/sdk_number.rs:297-327 | Api1 and Api2 are both "Base", Api5 and Api6 both "Eclair", Development is "Development" and every Unknown level is "Unknown" |
| SdkNumbers.PrettifyDots | src/results/sdk_number.rs:367-383 | the printed version holds one dot, or two when the patch is not zero, provided the build identifier has no dot |
| SdkNumbers.PrettifyExamples | src/results/sdk_number.rs:631-736 | Api6's version prints as "2.0.1" and Api20's as "4.4W" |
| SdkNumbersOld.Level | src/sdk_number.rs:5-34 | a variant's level is at most 26 (0 for ApiUnknown) |
| SdkNumbersOld.LevelRoundTrip | src/sdk_number.rs:75-107 | levels 1..=26 and the variants other than ApiUnknown determine each other; every other level, 0 included, is ApiUnknown |
| SdkNumbersOld.OrderIsReverseLevel | src/sdk_number.rs:5-34 | the derived order lists the newest level first: a higher level is a smaller variant, ApiUnknown is the largest, and a known variant's position is 26 minus its level |
| SdkNumbersOld.AsStrEndsWithLevel | src/sdk_number.rs:42-72 | the text of a known level ends with " (n)" for its level n, and ApiUnknown's text is "Unknown (?)" |
| Permissions.TryFrom | src/static_analysis/manifest/permission.rs:805-1367 | a lookup succeeds exactly when some permission's name is the input, byte for byte, and returns a permission with that name; otherwise it fails with the unknown-permission error naming the input |
| Permissions.FromStr | src/static_analysis/manifest/permission.rs:1370-1377 | parsing a text gives permission p exactly when p's name is the text |
| Permissions.Deserialize | src/static_analysis/manifest/permission.rs:270-283 | a non-string is an error; a string deserializes exactly when the lookup succeeds, to a permission with that name, and otherwise fails with the lookup's error |
| Permissions.ProbeAsStr | src/static_analysis/manifest/permission.rs:289-802 | every name in the table is recovered as its permission's position by a key made of its length and a few of its last characters, so the names are pairwise distinct |
| Permissions.AsStrInjective | src/static_analysis/manifest/permission.rs:289-802 | different permissions have different names |
| Permissions.TryFromAsStr | src/static_analysis/manifest/permission.rs:289-1367 | looking up a permission's name gives back that permission |
| Permissions.AsStrTryFrom | src/static_analysis/manifest/permission.rs:805-1367 | a lookup succeeds exactly when the input is some permission's name, and the permission found prints as the input |
| Permissions.FromStrExamples | src/static_analysis/manifest/tests.rs:60-70 | "android.permission.INTERNET" and "android.permission.WRITE_EXTERNAL_STORAGE" parse to their permissions, and the latter prints back as its name |
| Permissions.FromStrUnknownExamples | src/static_analysis/manifest/tests.rs:71 | "Razican" is rejected with the unknown-permission error, and so is the lower-case "android.permission.internet" |
| PermissionChecklists.PermissionChecklist.constructor | src/static_analysis/manifest/permission_checklist.rs:5-6 | the default checklist answers false for every permission |
| PermissionChecklists.PermissionChecklist.SetNeedsPermission | src/static_analysis/manifest/permission_checklist.rs:894-1597 | afterwards p's flag is up; every other flag keeps its value; setting a raised flag again changes nothing; no flag goes down |
| PermissionChecklists.ChecklistScenario | src/static_analysis/manifest/tests.rs:50-56 | a fresh checklist with INTERNET set answers true for INTERNET and false for WRITE_EXTERNAL_STORAGE |
| Vulnerabilities.PartialCmpLaws | src/results/utils.rs:114-133 | the hand-written comparison ties exactly when criticality, file, start line, end line and name agree; swapping the operands flips the answer; description and code never matter |
| Vulnerabilities.DerivedCmpLaws | src/results/utils.rs:24-40 | the derived order ties exactly on equal vulnerabilities and is antisymmetric, so the ordered-set buckets it keys behave as sets (file paths compared as text) |
| Vulnerabilities.OrderingsDisagree | src/results/utils.rs:114-133 | two findings that differ only in their description tie under the hand-written comparison but not under the derived order, and the two orders can rank a pair in opposite directions |
| Vulnerabilities.CmpStringLaws | src/results/utils.rs:114-133 | `str::cmp`, the comparison of names, descriptions and code (and, in this model, of file paths, which are kept as text), ties exactly on equal texts, and swapping flips it |
| Vulnerabilities.CmpStringTransitive | src/results/utils.rs:114-133 | that comparison is transitive |
| Vulnerabilities.SerializeWith | src/results/utils.rs:64-111 | serialization fails (the source's unwrap panics) exactly when there is code but no language, no start line, or different lines with no end line |
| Vulnerabilities.Serialize | src/results/utils.rs:64-111 | the same, with the language taken from the file's extension |
| Vulnerabilities.SerializeWithoutCode | src/results/utils.rs:70-83 | without code, four fields are announced and emitted: criticality (lower case), name, description, file |
| Vulnerabilities.SerializeSingleLine | src/results/utils.rs:70-111 | with code and equal lines, seven fields are announced and emitted, with the language and the one line counted from 1 |
| Vulnerabilities.SerializeLineRange | src/results/utils.rs:70-111 | with code and different lines, eight fields are announced and emitted, with both lines counted from 1 |
| ResultsStore.ExtendedTrans | src/results/mod.rs:173-214 | adding one list of findings and then another is adding their concatenation, bucket by bucket |
| ResultsStore.ExtendedOne | src/results/mod.rs:173-214 | adding one finding to its own bucket, and to no other, is adding the list holding that finding |
| ResultsStore.Results.constructor | src/results/mod.rs:85-122 | every text is empty, the version number is 0, the minimum SDK is Unknown(0), there is no target SDK and every bucket is empty |
| ResultsStore.Results.SetAppPackage | src/results/mod.rs:126-128 | the package is the given text and every other field keeps its value |
| ResultsStore.Results.SetCertificate | src/results/mod.rs:136-139 | the certificate is the given text and every other field keeps its value |
| ResultsStore.Results.SetAppLabel | src/results/mod.rs:142-144 | the label is the given text and every other field keeps its value |
| ResultsStore.Results.SetAppDescription | src/results/mod.rs:147-149 | the description is the given text and every other field keeps its value |
| ResultsStore.Results.SetAppVersion | src/results/mod.rs:152-154 | the version text is the given text and every other field keeps its value |
| ResultsStore.Results.SetAppVersionNum | src/results/mod.rs:157-159 | the version number is the given number and every other field keeps its value |
| ResultsStore.Results.SetAppMinSdk | src/results/mod.rs:162-164 | the minimum SDK is the variant of the level, whose number is that level; every other field keeps its value |
| ResultsStore.Results.SetAppTargetSdk | src/results/mod.rs:167-169 | a target SDK is present, the variant of the level, whose number is that level; every other field keeps its value |
| ResultsStore.Results.AddVulnerability | src/results/mod.rs:173-214 | the finding is added to the bucket of its criticality and every other bucket is unchanged; adding a finding already there changes nothing; the total (warnings excluded) grows by one exactly for a new finding that is not a warning; the identity fields are unchanged |
| ResultsStore.Results.SerializedLength | src/results/mod.rs:323-340 | the field count, counted up from 21, equals the number of fields the serializer emits, and lies in 21..=26 |
| ResultsStore.InsertCard | src/results/mod.rs:173-214 | inserting into a set adds one element exactly when it was absent |
| ResultsOld.OldPartialCmpLaws | src/results.rs:133-161 | two findings tie exactly when criticity, file, line and name agree; swapping them flips the answer; the description never matters; a lower criticity always comes first |
| ResultsOld.OldPartialCmpTransitive | src/results.rs:133-161 | the `Less` answer is transitive, so the buckets are ordered consistently |
| ResultsOld.OldResults.constructor | src/results.rs:40-50 | every application text is empty and every bucket is empty |
| ResultsOld.OldResults.Init | src/results.rs:21-58 | a store exists exactly when the folder is absent, or when force is set and removing the old folder succeeds; it lives at folder/app id and starts empty |
| ResultsOld.OldResults.SetAppPackage | src/results.rs:60-62 | the package is the given text and every other field keeps its value |
| ResultsOld.OldResults.SetAppLabel | src/results.rs:64-66 | the label is the given text and every other field keeps its value |
| ResultsOld.OldResults.SetAppDescription | src/results.rs:68-70 | the description is the given text and every other field keeps its value |
| ResultsOld.OldResults.SetAppVersion | src/results.rs:72-74 | the version is the given text and every other field keeps its value |
| ResultsOld.OldResults.AddVulnerability | src/results.rs:76-96 | the new finding joins the bucket of its criticity and no other, a duplicate leaves that bucket unchanged, and the application texts keep their values |
| Snippets.JoinLinesAppend | src/utils.rs:70-71 | joining two lists of lines, each line followed by a newline, is joining each list and concatenating |
| Snippets.SnippetStops | src/utils.rs:67-68 | lines from index e_line + 5 on add nothing, so breaking out of the loop there loses nothing |
| Snippets.GetCode | src/utils.rs:64-75 | the result is the text built line by line: every selected line before index e_line + 5, in order, each followed by a newline |
| Snippets.SnippetIsWindow | src/utils.rs:64-75 | the snippet is exactly the contiguous window of lines from max(s_line - 4, 0) to the end bound, in original order; the end bound never passes e_line + 5 (and is s_line + 5 when s_line < 5) |
| Snippets.JoinLinesNext | src/utils.rs:70-71 | a window one line longer adds that line and a newline |
| Snippets.GetCodeExamples | src/utils.rs:169-231 | the four unit-test cases (1,1), (13,13), (7,7) and (7,9) on a fifteen-line text copy lines 0-5, 9-14, 3-11 and 3-13 |
| Snippets.GetCodeDropsFindingLines | src/utils.rs:69 | as written, a finding from line 2 to line 10 gets only lines 0-6, which differs from the intended window |
| Snippets.IntendedSnippetCoversFinding | src/utils.rs:64-75 | the intended window starts no later than the start line and runs to e_line + 5, so it holds the whole finding; it agrees with the code as written whenever s_line >= 5 or the finding is one line |
| Html.FirstNonWhitespace | src/results/utils.rs:193 | the position found is the first character that is not white space, every character before it is white space, and none means the whole line is white space |
| Html.SplitIndent | src/results/utils.rs:192-197 | the two parts concatenate to the line; the indentation is all white space; the body starts with a character that is not white space, or the line is all white space and the indentation is empty |
| Html.EscapedAppend | src/results/utils.rs:205-230 | escaping distributes over concatenation, so each character is escaped on its own |
| Html.EscapedPlain | src/results/utils.rs:212-229 | text without `<`, `>` and `&` escapes to itself |
| Html.EscapedHasNoAngles | src/results/utils.rs:205-230 | escaped text holds no `<` and no `>` |
| Html.UnescapeEscaped | src/results/utils.rs:217-222 | decoding the three entities gives back the original text, so escaping loses nothing |
| Html.EscapedStep | src/results/utils.rs:215-224 | copying the plain text since the last match and then the escaped match extends the escaped prefix by one character |
| Html.HtmlEscape | src/results/utils.rs:205-230 | the output is the input with each `<`, `>` and `&` replaced by its entity and everything else copied in order; input without them comes back unchanged |
| HandlebarsHelpers.Separator | src/results/handlebars_helpers.rs:34-45 | the separator defaults to `<br>` when there is no second parameter, and a second parameter that is not a string is an error |
| HandlebarsHelpers.LineRange | src/results/handlebars_helpers.rs:46-53 | a finding with an integer `line` field has that line as both its start and its end |
| HandlebarsHelpers.NumberedSplit | src/results/handlebars_helpers.rs:60-63 | numbering a range of lines is numbering its two halves one after the other |
| HandlebarsHelpers.NumberLines | src/results/handlebars_helpers.rs:58-63 | the loop emits every number of the range in order, each followed by the separator |
| HandlebarsHelpers.LineNumbersCall | src/results/handlebars_helpers.rs:16-67 | the helper's output is the line numbers of the finding's window, or the error or panic of its parameters |
| HandlebarsHelpers.LineNumbersOfFinding | src/results/handlebars_helpers.rs:46-63 | a finding on lines s..e (stored from 1) gets the numbers of its snippet's lines: from max(s - 4, 0) + 1 up to e + 5, each followed by `<br>`, whether it is stored with `line` or with `start_line` and `end_line` |
| HandlebarsHelpers.AllLinesCall | src/results/handlebars_helpers.rs:76-111 | the helper's output is the numbers 1 up to the number of newlines in the code, each followed by the separator |
| HandlebarsHelpers.AllCodeCall | src/results/handlebars_helpers.rs:120-160 | the helper's output is every line of the code as a numbered `code-line` element, numbered from 1 |
| HandlebarsHelpers.WriteCodeLines | src/results/handlebars_helpers.rs:146-158 | the loop writes the lines in order, the i-th numbered i + 1 |
| HandlebarsHelpers.CodeLineShowsLine | src/results/handlebars_helpers.rs:147-155 | each line is shown as its raw indentation and its escaped body, and unescaping the body with the indentation gives the line back |
| HandlebarsHelpers.LinesCount | src/results/handlebars_helpers.rs:102 | `lines()` gives one line per newline, plus one for text after the last newline |
| HandlebarsHelpers.AllLinesMissesUnterminatedLine | src/results/handlebars_helpers.rs:102-107 | as written, the code `a` gets no line number although it has one line |
| HandlebarsHelpers.IntendedAllLinesNumbersEveryLine | src/results/handlebars_helpers.rs:102-146 | the intended numbering gives one number to each line `AllCode` shows, and agrees with the code as written exactly when the code is empty or ends with a newline |
| HandlebarsHelpers.MarkedLinesAfterPanic | src/results/handlebars_helpers.rs:219-246 | once a line has panicked, the later lines change nothing |
| HandlebarsHelpers.HtmlCodeCall | src/results/handlebars_helpers.rs:176-248 | the helper's output is the finding's snippet, each line numbered from the window start and marked or plain |
| HandlebarsHelpers.WriteMarkedLines | src/results/handlebars_helpers.rs:219-246 | the loop writes the lines in order and ends at the first panic |
| HandlebarsHelpers.HtmlCodeMarksFindingLines | src/results/handlebars_helpers.rs:217-230 | the k-th line of a finding's snippet is marked vulnerable exactly when it is one of the finding's own lines |
| HandlebarsHelpers.MenuHtmlOk | src/results/handlebars_helpers.rs:332-374 | the menu renders exactly when every entry, at every depth, is an object with a name and either a `menu` array or `path` and `type` strings |
| HandlebarsHelpers.MenuHtmlAfterError | src/results/handlebars_helpers.rs:333-372 | after an entry fails, the later entries change nothing |
| HandlebarsHelpers.RenderMenu | src/results/handlebars_helpers.rs:332-374 | the loop renders the entries in order, recursing into folders, and stops at the first error |
| HandlebarsHelpers.RenderEntry | src/results/handlebars_helpers.rs:334-370 | one entry is a folder with its inner list, or a file link, or an error |
| HandlebarsHelpers.GenerateMenu | src/results/handlebars_helpers.rs:309-329 | the menu renders only when the first parameter is an array of well-formed entries |
| HandlebarsHelpers.EntryHtmlOk | src/results/handlebars_helpers.rs:334-370 | one menu entry renders exactly when it is well formed: an object with a string `name` and either a `menu` array whose entries are all well formed or a string `path` and `type` |
| Configs.PermissionCmpByName | src/config.rs:590-600 | `partial_cmp` of two configured permissions ties exactly when `eq` holds, swapping them flips the answer, and neither looks at anything but the name |
| Configs.AsI64 | src/config.rs:99-104 | the cast of a `usize` to `i64` always lands in the `i64` range |
| Configs.ThreadsFromToml | src/config.rs:88-117 | an accepted thread count is positive |
| Configs.ThreadsAcceptedInRange | src/config.rs:96-110 | on 32-bit and 64-bit targets a thread count is accepted exactly when it is a positive integer that fits in a `usize`, and is then kept as it is |
| Configs.UnknownPermissionFromToml | src/config.rs:120-156 | the unknown-permission entry is accepted exactly when it is a table whose `criticality` and `description` are strings and whose criticality parses, and then it is that pair |
| Configs.UnknownPermissionErrorOrder | src/config.rs:126-148 | a missing description is reported before a criticality that does not parse, and criticality names parse without regard to case |
| Configs.PlainPackageParts | src/config.rs:374-375 | joining a plain name onto a folder puts a `/` between them, and the name is the file name of the result |
| Configs.PackagePathAddsApk | src/config.rs:374-397 | the recorded package path is the downloads folder, `/` and the name, followed by `.apk` unless the name's extension is already `apk` |
| Configs.PackagePathExample | src/config.rs:711-722 | `test_app` added to the downloads folder `.` is recorded as `./test_app.apk` |
| Configs.ModesOf | src/config.rs:186-193 | the current force mode starts as the overall one, both as given on the command line |
| Configs.Config.LocalDefault | src/config.rs:510-542 | no packages, every mode off, minimum criticality Warning, one thread per processor, the folders and files relative to the working directory, and the unknown permission Low with its default description |
| Configs.Config.Default | src/config.rs:545-565 | the local defaults, with the system-wide rules file when it exists and the shared folder's tools and templates when that folder exists |
| Configs.Config.AddAppPackage | src/config.rs:374-397 | the package path is appended and the packages added before stay as they were |
| Configs.Config.ReadApks | src/config.rs:262-291 | every readable entry of the downloads folder whose extension is `apk` adds the package named by its file stem, in order; unreadable entries are skipped |
| Configs.Config.SetForce | src/config.rs:415-417 | the current force mode is on and every other mode keeps its value |
| Configs.Config.ResetForce | src/config.rs:420-422 | the current force mode goes back to the overall one and every other mode keeps its value |
| Configs.Config.HasToGenerateHtml | src/config.rs:435-442 | some report is always generated; with neither flag it is the HTML one; with only the JSON flag HTML is not generated |
| Configs.Config.SetOptions | src/config.rs:209-259 | each option given replaces its setting; a minimum criticality that does not parse or a thread count that is not a positive `usize` leaves the setting as it was; a valid thread count stays valid |
| Configs.Config.DecorateWithCli | src/config.rs:183-206 | the options, then the modes, then the packages: every APK in the downloads folder with `test-all`, else the named one; it fails exactly when `test-all` is given and the folder cannot be read |
| Configs.Config.Check | src/config.rs:294-310 | the check passes exactly when the downloads folder, the vendor tools, the template and the rules file exist and so does every package |
| Configs.Config.Errors | src/config.rs:313-361 | one issue per missing path, in the order the source checks them |
| Configs.Config.IssuesEmpty | src/config.rs:294-361 | no issue is reported exactly when everything `check` looks at exists and so does the templates folder |
| Configs.LocationIssues | src/config.rs:330-360 | no issue for the tools, templates and rules exactly when all of them exist |
| Configs.MissingPackagesEmpty | src/config.rs:321-328 | no package issue exactly when every package exists |
| Configs.ConfigScenario | src/config.rs:640-744 | with the defaults, `test_app` becomes `./test_app.apk`; resetting force turns it off, or keeps it on once the overall force is set; with neither format flag HTML and not JSON is generated |
| Configs.MinCriticalityAfter | src/config.rs:210-224 | a given minimum criticality that parses replaces the current one; a missing or unparsable one keeps it |
| Configs.ThreadsAfter | src/config.rs:225-237 | a given thread count replaces the current one exactly when it parses as a `usize` and is positive; otherwise the count is kept |
| Configs.PackagePathOtherExtension | src/config.rs:374-397 | a package whose name has an extension other than `apk` gets `.apk` appended to its whole name |
| CodeRules.HasToCheck | src/static_analysis/code/rule.rs:80-96 | the rule applies to every file when neither file expression is set; when an exclude expression is set, to the files it does not match whatever the include expression says; otherwise to the files the include expression matches |
| CodeRules.FileSelectedCases | src/static_analysis/code/rule.rs:298-406 | the cases of the unit tests: both unset selects; an include alone selects exactly what it matches; a matching exclude rejects with or without an include; an include and an exclude that both miss still select |
| CodeRules.CompiledList | src/static_analysis/code/rule.rs:154-167 | a whitelist that is read has one compiled expression per element |
| CodeRules.CompiledListAfterError | src/static_analysis/code/rule.rs:163-165 | once an element fails, the elements after it change nothing |
| CodeRules.CompiledListOk | src/static_analysis/code/rule.rs:154-167 | the whitelist is read exactly when every element is a string that compiles, and then holds the compiled elements in order |
| CodeRules.CompileList | src/static_analysis/code/rule.rs:154-167 | the loop reads and compiles the elements in order until one fails |
| CodeRules.Validate | src/static_analysis/code/rule.rs:242-283 | a rule without a forward check passes; otherwise it passes exactly when an `fc1` group comes with `{fc1}` in the forward check and an `fc2` group with `{fc2}`, the `fc1` error taking precedence; a rule that passes is returned unchanged |
| CodeRules.KeptAppend | src/static_analysis/code/rule.rs:239-289 | filtering by criticality distributes over concatenation, so the kept rules stay in file order |
| CodeRules.KeptMembers | src/static_analysis/code/rule.rs:239-289 | a rule is kept exactly when it is in the file and its criticality is at least the minimum |
| CodeRules.FirstRefusal | src/static_analysis/code/rule.rs:290-291 | there is no refusal exactly when every rule passes, and a refusal is that of some rule that fails |
| CodeRules.LoadRules | src/static_analysis/code/rule.rs:207-294 | an unparsable file is an error; otherwise the load succeeds exactly when every kept rule passes its check, and then gives the kept rules in order |
| CodeRules.LoadedRules | src/static_analysis/code/rule.rs:238-294 | a successful load holds exactly the file's rules at or above the minimum, each of which passes its check |
| CodeRules.OneRefusalFailsLoad | src/static_analysis/code/rule.rs:238-294 | one refused rule at or above the minimum fails the whole load with the first such error; refused rules below the minimum are never checked |
| CodeRules.FirstRefusalAt | src/static_analysis/code/rule.rs:290-291 | the first refusal is that of the first rule that is refused |
| CodeAnalysis.GetLineFor | src/static_analysis/code/mod.rs:250-261 | the line of a position is the number of newlines before it, or all of them when the position is past the end |
| CodeAnalysis.LineForMonotone | src/static_analysis/code/mod.rs:218-219 | a later position is never on an earlier line, so a finding's start line is never after its end line |
| CodeAnalysis.LineForPastEnd | src/static_analysis/code/mod.rs:252-258 | from the end of the text on, every newline has been counted |
| CodeAnalysis.RequiredPermissionsHeld | src/static_analysis/code/mod.rs:167-177 | the rule passes the permission loop exactly when it needs no permission, or there is a manifest that asks for every permission it needs |
| CodeAnalysis.RuleApplies | src/static_analysis/code/mod.rs:151-177 | a rule is applied unless the manifest's minimum SDK is above its maximum SDK, the file name is known and the rule does not select it, or a permission it needs is not asked for |
| CodeAnalysis.IsWhitelisted | src/static_analysis/code/mod.rs:180-184 | a match is discarded exactly when some whitelist expression matches its text |
| CodeAnalysis.SubstitutedWithoutPlaceholders | src/static_analysis/code/mod.rs:186-198 | a forward check without placeholders is used as written |
| CodeAnalysis.FindingSnippet | src/utils.rs:64-75 | the snippet is the lines from max(s - 4, 0) up to e + 4, each followed by a newline, and equals `get_code` as written whenever s >= 5 or s == e (the corrected window, see Findings) |
| CodeAnalysis.Finding | src/static_analysis/code/mod.rs:213-240 | a finding carries the rule's criticality, label and description, the file, the lines of the match's start and end, the start no later than the end, and the corrected snippet of those lines |
| CodeAnalysis.FoundList.constructor | src/static_analysis/code/mod.rs:56 | the shared list of findings starts empty |
| CodeAnalysis.FoundList.Push | src/static_analysis/code/mod.rs:215-224 | a finding is appended and the earlier ones are kept |
| CodeAnalysis.ReportMatches | src/static_analysis/code/mod.rs:212-227 | the loop over the forward check's matches adds one finding per match, in order |
| CodeAnalysis.RuleScanAfterStop | src/static_analysis/code/mod.rs:200-209 | once the rule's loop has stopped, the later matches change nothing |
| CodeAnalysis.ScanShift | src/static_analysis/code/mod.rs:179-243 | one match adds the same findings whatever was found before it |
| CodeAnalysis.MatchStep | src/static_analysis/code/mod.rs:180-242 | one match is discarded when whitelisted, gives its own finding without a forward check, gives one finding per match of the filled-in forward check, ends the rule's loop when that check does not compile, and panics when the match cannot be captured again |
| CodeAnalysis.RuleMatches | src/static_analysis/code/mod.rs:179-243 | the rule's loop gives the findings of its matches in order, until a forward check does not compile or a capture panics |
| CodeAnalysis.NextScanShift | src/static_analysis/code/mod.rs:151-244 | a rule adds the same findings whatever was found before it |
| CodeAnalysis.CheckRule | src/static_analysis/code/mod.rs:151-244 | one turn of the rule loop: nothing when the rule does not apply, else the findings of its matches |
| CodeAnalysis.FileScanAfterPanic | src/static_analysis/code/mod.rs:186 | after a panic the remaining rules change nothing |
| CodeAnalysis.InapplicableRuleAddsNothing | src/static_analysis/code/mod.rs:151-177 | a rule that does not apply to the file adds nothing, wherever it stands in the list |
| CodeAnalysis.AnalyzeRules | src/static_analysis/code/mod.rs:151-244 | the rule loop gives the findings of the rules that apply, in order, until a capture panics |
| CodeAnalysis.AnalyzeFile | src/static_analysis/code/mod.rs:142-247 | an unreadable file adds nothing; a readable one adds the findings of every rule that applies, in order |
| CodeAnalysis.CodeScanGrows | src/static_analysis/code/mod.rs:77-92 | the findings only grow and the workers only die |
| CodeAnalysis.MoreWorkersFindMore | src/static_analysis/code/mod.rs:68-93 | with fewer workers the findings are those of the larger pool until the fewer run out, and a prefix of them afterwards |
| CodeAnalysis.LockedQueueFindsLess | src/static_analysis/code/mod.rs:77-92 | with the queue locked during each file the findings are a prefix of those the older free-running workers give |
| CodeAnalysis.TakeFile | src/static_analysis/code/mod.rs:77-91 | a worker pops the last file, analyses it, and is lost when that file panics |
| CodeAnalysis.AnalyzeFiles | src/static_analysis/code/mod.rs:68-93 | the workers pop and analyse files from the end of the queue until it is empty or no worker is left |
| CodeAnalysis.CollectAfterError | src/static_analysis/code/mod.rs:276-287 | after an error in a directory, its remaining entries are not read |
| CodeAnalysis.IntactCollects | src/static_analysis/code/mod.rs:263-313 | reading a tree without unreadable parts finishes without error |
| CodeAnalysis.FlatDirectoryCollects | src/static_analysis/code/mod.rs:299-310 | a directory holding only files gives exactly its XML and Java files other than the manifest and the resource classes, in listing order |
| CodeAnalysis.SubdirectoryFound | src/static_analysis/code/mod.rs:291-298 | what is found in a subdirectory that is neither skipped nor `original` is found below its parent |
| CodeAnalysis.CollectEntries | src/static_analysis/code/mod.rs:276-312 | everything pushed lies below the directory, in no skipped folder and no `original` folder, and is a wanted file |
| CodeAnalysis.FileQueue.constructor | src/static_analysis/code/mod.rs:44 | the queue of files starts empty |
| CodeAnalysis.FileQueue.Push | src/static_analysis/code/mod.rs:307 | a file is appended and the earlier ones are kept |
| CodeAnalysis.AddFilesToVec | src/static_analysis/code/mod.rs:263-313 | a skipped folder adds nothing; otherwise each entry in turn, descending into directories other than `original` and pushing the wanted files; the first error ends the walk and keeps what was pushed |
| CodeAnalysis.RuleScanFromRule | src/static_analysis/code/mod.rs:179-243 | every finding of a rule carries that rule's criticality, label and description and the file, with its lines in order |
| CodeAnalysis.FileScanWellFormed | src/static_analysis/code/mod.rs:151-244 | when every rule is at least as critical as the minimum, so is every finding of a file |
| CodeAnalysis.CodeScanWellFormed | src/static_analysis/code/mod.rs:68-93 | the workers keep every finding at or above the minimum, with its file and its lines in order |
| CodeAnalysis.CodeFindingsWellFormed | src/static_analysis/code/mod.rs:27-131 | the code analysis reports nothing below the configured minimum criticality, and every finding names its file and starts no later than it ends |
| CodeAnalysis.ReportAll | src/static_analysis/code/mod.rs:125-131 | every finding is added to the results, and the application data is unchanged |
| CodeAnalysis.AnalyzeCode | src/static_analysis/code/mod.rs:27-131 | a failed rule load adds nothing; otherwise the files are queued and analysed and every finding is added to the results |
| CodeAnalysis.Analysis | src/static_analysis/code/mod.rs:27-131 | the analysis adds exactly the findings of a single worker over the queued files, because the queue stays locked while a file is analysed |
| CodeAnalysis.OldAnalysis | src/static_analysis/code.rs:24-143 | the older analysis adds the findings of all its threads, each a worker until it panics, because the queue is released before each file |
| BinaryAnalysis.FirstZero | src/static_analysis/binary.rs:118-120 | the position found holds the first zero byte, and there is none exactly when the data holds no zero byte |
| BinaryAnalysis.SegmentsCount | src/static_analysis/binary.rs:118-137 | the table has one string per zero byte of the section |
| BinaryAnalysis.SegmentsRejoin | src/static_analysis/binary.rs:118-137 | writing the strings back, each with its zero byte, gives the data up to its last zero byte, and what follows has no zero byte |
| BinaryAnalysis.RejoinSegments | src/static_analysis/binary.rs:118-137 | zero-free strings written back with a zero-free tail are cut into the same strings again |
| BinaryAnalysis.SegmentsExtend | src/static_analysis/binary.rs:120-122 | one more zero-terminated string adds one string to the table |
| BinaryAnalysis.SegmentsDropTail | src/static_analysis/binary.rs:118-137 | the bytes after the last zero byte give no string |
| BinaryAnalysis.SegmentsAtZero | src/static_analysis/binary.rs:120-122 | a zero byte ends the string that started at the cursor |
| BinaryAnalysis.BuildStringTable | src/static_analysis/binary.rs:114-140 | the loop's table is the decoded zero-terminated strings of the section, in order |
| BinaryAnalysis.StringTableShape | src/static_analysis/binary.rs:114-140 | the table has one string per zero byte, each the decoding of the bytes since the previous zero byte, or empty when they are not valid UTF-8 |
| BinaryAnalysis.AsI32 | src/static_analysis/binary.rs:83 | the cast keeps values that fit in an `i32` and always lands in the `i32` range |
| BinaryAnalysis.GenerateCode | src/static_analysis/binary.rs:79-98 | the code is the strings from four before to four after the position, one per line, with an empty line where there is none |
| BinaryAnalysis.PositionExact | src/static_analysis/binary.rs:83 | positions below 2^31 - 4 do not wrap |
| BinaryAnalysis.CodeUpToPrefix | src/static_analysis/binary.rs:82-95 | what is shown up to an offset stays at the head of the code |
| BinaryAnalysis.CodeUpToLines | src/static_analysis/binary.rs:82-95 | with strings free of newlines, the code up to an offset has one line per offset |
| BinaryAnalysis.CodeShowsString | src/static_analysis/binary.rs:79-98 | the string the finding is about is line 4 of its code, after four lines, and the code has nine lines |
| BinaryAnalysis.CheckedMembers | src/static_analysis/binary.rs:45-46 | a rule is kept exactly when it is one of the rules and selects the library's file name |
| BinaryAnalysis.RetainChecked | src/static_analysis/binary.rs:45-46 | the kept rules are those that select the file name, in order |
| BinaryAnalysis.Hit | src/static_analysis/binary.rs:58-66 | a finding is a warning with the rule's label and description, the library's path, line 4 for both ends and the code around the string |
| BinaryAnalysis.Copies | src/static_analysis/binary.rs:54 | n matches give n identical findings |
| BinaryAnalysis.RuleHitsMembers | src/static_analysis/binary.rs:54-69 | one rule gives a finding in a string exactly when it matches that string, and only that finding |
| BinaryAnalysis.StringHitsMembers | src/static_analysis/binary.rs:51-70 | the findings in one string are those of the kept rules that match it |
| BinaryAnalysis.LibHitsMembers | src/static_analysis/binary.rs:48-74 | the findings of a library are exactly those of the rules that match a non-empty string of its table, each with the code around that string |
| BinaryAnalysis.ReportRule | src/static_analysis/binary.rs:54-69 | each match of one rule is added to the results and nothing else changes |
| BinaryAnalysis.ReportString | src/static_analysis/binary.rs:51-70 | the kept rules are searched in order in one string and their findings added |
| BinaryAnalysis.ReportTable | src/static_analysis/binary.rs:48-74 | the loop over the table adds the findings of every non-empty string |
| BinaryAnalysis.ReportTableString | src/static_analysis/binary.rs:50-73 | an empty string is skipped and any other is searched |
| BinaryAnalysis.AnalyzeLib | src/static_analysis/binary.rs:39-77 | a library whose section cannot be read panics; otherwise the findings of the rules that apply to it are added |
| BinaryAnalysis.LibFindingsMembers | src/static_analysis/binary.rs:39-77 | every finding of a library is a warning at line 4 for a rule that selects its file and matches a non-empty string of its table, and every such match gives one |
| BinaryAnalysis.NoRuleNoFinding | src/static_analysis/binary.rs:45-46 | a library whose rules all select other files adds nothing |
| BinaryAnalysis.ArchScanAfterStop | src/static_analysis/binary.rs:24-32 | once the walk of a directory has stopped, further entries change nothing |
| BinaryAnalysis.LibsScanAfterStop | src/static_analysis/binary.rs:19-34 | once the walk of `lib` has stopped, further entries change nothing |
| BinaryAnalysis.AnalyzeEntry | src/static_analysis/binary.rs:25-31 | one entry of an architecture directory: an unreadable one is an error, a shared object is analysed, and anything else is skipped |
| BinaryAnalysis.AnalyzeArch | src/static_analysis/binary.rs:24-32 | the walk over one architecture directory; an unreadable entry ends it with an error |
| BinaryAnalysis.AnalyzeArchEntry | src/static_analysis/binary.rs:20-33 | one entry of `lib`: an unreadable one is an error, a directory is walked, and anything else is skipped |
| BinaryAnalysis.AnalyzePath | src/static_analysis/binary.rs:16-37 | every architecture directory under `lib` is walked; the first entry that cannot be read ends it with an error and a library whose section cannot be read ends the program, keeping what was added before |
| BinaryAnalysis.ArchScanFindings | src/static_analysis/binary.rs:24-66 | every finding of the walk of an architecture directory is a warning at line 4 that names its file |
| CertificateAnalysis.ParseMonth | src/static_analysis/certificate.rs:12-30 | a month number is at most 12 |
| CertificateAnalysis.ParseMonthNames | src/static_analysis/certificate.rs:12-30 | the twelve month names are read as their position in the calendar, and any other text is 0 |
| CertificateAnalysis.LaterIsStrictOrder | src/static_analysis/certificate.rs:162-163 | the expiry test is a strict total order on dates (never true of a date and itself, transitive, true in exactly one direction for two different dates) and, for calendar months and days, is the order of year, month and day |
| CertificateAnalysis.ParseI32 | src/static_analysis/certificate.rs:155 | a parsed year lies in the `i32` range |
| CertificateAnalysis.NotAfter | src/static_analysis/certificate.rs:154-160 | a date is read only from a text of at least 20 characters, with a month of at most 12 |
| CertificateAnalysis.NotAfterReadsPrinted | src/static_analysis/certificate.rs:154-160 | a date `openssl` prints with a four-digit year is read back as that date, for one-digit and two-digit days alike |
| CertificateAnalysis.YearReadsBack | src/static_analysis/certificate.rs:155 | a four-digit year reads back as itself |
| CertificateAnalysis.OneDigitDay | src/static_analysis/certificate.rs:157-160 | a one-digit day with its leading space does not parse, and reads back without the space |
| CertificateAnalysis.TwoDigits | src/static_analysis/certificate.rs:157 | a two-digit day reads back as itself |
| CertificateAnalysis.Find | src/static_analysis/certificate.rs:123-125 | the position found is the first occurrence of the separator, and there is none exactly when it does not occur |
| CertificateAnalysis.SecondField | src/static_analysis/certificate.rs:123-127 | the second field exists exactly when the line holds the separator, and holds no separator itself |
| CertificateAnalysis.LastWithIsLast | src/static_analysis/certificate.rs:111-121 | the line kept for a key is the last line containing it, and it is empty exactly when no line does |
| CertificateAnalysis.ScanLines | src/static_analysis/certificate.rs:108-121 | the loop keeps, for the issuer, the subject and the expiry, the last line that contains each key |
| CertificateAnalysis.DebugFinding | src/static_analysis/certificate.rs:128-138 | the debug finding is critical and has no file, no lines and no code |
| CertificateAnalysis.ExpiredFinding | src/static_analysis/certificate.rs:164-175 | the expired finding is high and has no file, no lines and no code |
| CertificateAnalysis.CertificateFindingsCases | src/static_analysis/certificate.rs:123-181 | once the issuer and the expiry date are read, the debug finding is reported exactly when the issuer names the Android debug authority and the expired finding exactly when today is past the expiry date |
| CertificateAnalysis.CertificateFindingsAre | src/static_analysis/certificate.rs:123-181 | a printed certificate gives only the debug finding or the expired finding |
| CertificateAnalysis.ReportFinding | src/static_analysis/certificate.rs:139-176 | the finding is added to the results and the application data is unchanged |
| CertificateAnalysis.AnalyzeCertificate | src/static_analysis/certificate.rs:100-181 | the findings of one printed certificate are added; the analysis fails exactly where the source panics on a missing field or an unreadable date |
| CertificateAnalysis.ReportFields | src/static_analysis/certificate.rs:123-181 | the issuer field is unwrapped and decides the debug finding, then the expiry field is unwrapped and read and decides the expired finding |
| CertificateAnalysis.EntriesScanAfterStop | src/static_analysis/certificate.rs:42-97 | once the loop has stopped, further entries change nothing |
| CertificateAnalysis.EntriesScanNext | src/static_analysis/certificate.rs:42-183 | the loop over one more entry is the loop so far followed by that entry |
| CertificateAnalysis.AnalyzeEntry | src/static_analysis/certificate.rs:43-182 | one entry of `META-INF`: an unreadable entry ends the loop, a file with extension `RSA` or `DSA` is printed by `openssl` and analysed, and anything else is skipped |
| CertificateAnalysis.AnalyzeCertificates | src/static_analysis/certificate.rs:32-193 | an unreadable `META-INF` is an error; otherwise its entries are analysed in order until one cannot be read, `openssl` fails or the analysis panics, and what was added before stays; the findings carry the source's names and descriptions ("Android Debug Certificate", "Expired certificate") |
| CertificateAnalysis.EntriesScanFindings | src/static_analysis/certificate.rs:42-183 | every finding of the certificate analysis is the debug finding or the expired one |
| Manifests.InstallLocationTryFrom | src/static_analysis/manifest/mod.rs:740-754 | exactly the texts `internalOnly`, `auto` and `preferExternal` are accepted, each as the location it names; any other text is an error quoting the value, or an invalid-UTF-8 error when the bytes are not UTF-8 |
| Manifests.InstallLocationFromStr | src/static_analysis/manifest/mod.rs:756-763 | a text is parsed as a location exactly when it is that location's name |
| Manifests.InstallLocationRoundTrip | src/static_analysis/manifest/tests.rs:33-48 | every location's name parses back to it, the three names of the unit test parse to their locations and `Razican` is refused |
| Manifests.LocalName | src/static_analysis/manifest/mod.rs:298 | the part of a key the handlers match is its last `':'`-separated segment: a colon-free suffix of the key, preceded by `':'` when shorter, and the whole key when it has no `':'` |
| Manifests.LocalNamePrefixed | src/static_analysis/manifest/mod.rs:298 | a key `prefix:name` is matched by its `name` |
| Manifests.KeyOfName | src/static_analysis/manifest/mod.rs:298-332 | each attribute name a handler acts on is recognised as that attribute and as no other |
| Manifests.PrefixedKey | src/static_analysis/manifest/mod.rs:298-332 | `android:versionCode` and every other namespaced attribute name is recognised as the attribute its local name stands for |
| Manifests.KeyNameInjective | src/static_analysis/manifest/mod.rs:298-332 | no two handled attributes share a name |
| Manifests.GetLine | src/static_analysis/manifest/mod.rs:765-773 | the 0-based number of the first line of the code that contains the text, and nothing exactly when no line contains it |
| Manifests.ManifestFinding | src/static_analysis/manifest/mod.rs:103-118 | a manifest finding has the given criticality, name and description, names `AndroidManifest.xml` and starts and ends at the first line holding the searched text |
| Manifests.FlagValue | src/static_analysis/manifest/mod.rs:389-400 | a flag value fails exactly when it is not UTF-8 and raises the flag exactly when it is the text `true` |
| Manifests.NumberValue | src/static_analysis/manifest/mod.rs:302-314 | a number value is either the `u32` the text denotes, or an error that says whether the bytes were not UTF-8 or the text is not a `u32` |
| Manifests.TextValue | src/static_analysis/manifest/mod.rs:299-301 | a text value is the text itself exactly when it is UTF-8 |
| Manifests.ManifestAttribute | src/static_analysis/manifest/mod.rs:294-335 | an attribute of `<manifest>` changes at most the package, the version code and name and the install location |
| Manifests.SdkAttribute | src/static_analysis/manifest/mod.rs:337-373 | an attribute of `<uses-sdk>` changes at most the minimum and target SDK, and a changed target is present |
| Manifests.LabelAfter | src/static_analysis/manifest/mod.rs:451-476 | a `@string/<name>` label is the string resource `<name>` and stays as it was when there is none; any other label is taken as it is unless it is not UTF-8 |
| Manifests.ApplicationAttribute | src/static_analysis/manifest/mod.rs:375-480 | an attribute of `<application>` never lowers a flag and changes at most the four flags, the description and the label |
| Manifests.ManifestHandled | src/static_analysis/manifest/mod.rs:250 | a well-formed attribute of `<manifest>` is handled as its recognised key |
| Manifests.SdkHandled | src/static_analysis/manifest/mod.rs:251 | a well-formed attribute of `<uses-sdk>` is handled as its recognised key |
| Manifests.ApplicationHandled | src/static_analysis/manifest/mod.rs:252-256 | a well-formed attribute of `<application>` is handled as its recognised key |
| Manifests.AttributesStopAtError | src/static_analysis/manifest/mod.rs:294-335 | the first error ends the element's attributes: those after it change nothing |
| Manifests.ErrorAt | src/static_analysis/manifest/mod.rs:294-335 | the handlers' result over all attributes is their result up to the first error |
| Manifests.AttributesRaiseFlagsOnly | src/static_analysis/manifest/mod.rs:294-480 | over any attributes, no handler lowers a flag, and `<manifest>` and `<uses-sdk>` change only their own fields |
| Manifests.HandlersUseLocalName | src/static_analysis/manifest/mod.rs:298 | an attribute `ns:x` is handled exactly as the attribute `x` |
| Manifests.ApplicationFlagNeedsTrue | src/static_analysis/manifest/mod.rs:388-450 | a flag attribute of `<application>` raises exactly its own flag when its value is `true`, leaves everything unchanged for any other UTF-8 value (`false` or a non-boolean), and fails when its value is not UTF-8 |
| Manifests.FlagValueNeedsTrue | src/static_analysis/manifest/mod.rs:388-450 | the same as `ApplicationFlagNeedsTrue`, on the handler for one flag key |
| Manifests.SdkLevelPrinted | src/static_analysis/manifest/mod.rs:342-366 | a `u32` printed in decimal as `minSdkVersion` or `targetSdkVersion` becomes the minimum or the target SDK |
| Manifests.ExportedScanStopsAtError | src/static_analysis/manifest/mod.rs:541-542 | a malformed attribute ends the component's scan, and nothing after it counts |
| Manifests.ExportedIgnoresNonBoolean | src/static_analysis/manifest/mod.rs:543-565 | an `exported` value that is not a boolean leaves the scan as it was |
| Manifests.ExportedFinding | src/static_analysis/manifest/mod.rs:588-607 | the finding for an exported component is a warning named `Exported <tag>` with the fixed description |
| Manifests.ExportedFindingsIff | src/static_analysis/manifest/mod.rs:585-621 | a component is reported exactly when it is not explicitly unexported, it is not a provider that omits `exported` on SDK 17 or higher, and the minimum criticality is `Warning`; every finding is a warning naming the tag |
| Manifests.ProviderDefaultsUnexported | src/static_analysis/manifest/mod.rs:587 | without `exported`, a provider on SDK 17 or higher is never reported, while an activity always is |
| Manifests.PermissionName | src/static_analysis/manifest/mod.rs:490-526 | a known permission name adds exactly that permission; an unknown or non-UTF-8 one stops the element and adds no permission, and an unknown UTF-8 name also adds its report |
| Manifests.KnownPermission | src/static_analysis/manifest/mod.rs:491-499 | a value names a permission exactly when it is UTF-8 and the permission table knows it, and then it is that permission's name |
| Manifests.UnknownPermissionFindings | src/static_analysis/manifest/mod.rs:500-521 | an unknown permission gets one report exactly when its configured criticality is strictly above the minimum: named `Unknown permission`, with the configured criticality and description, at the first line holding the name |
| Manifests.ExtendsTrans | src/static_analysis/manifest/mod.rs:482-529 | "only adds permissions and unknown-permission reports" is transitive |
| Manifests.PermissionScanGrows | src/static_analysis/manifest/mod.rs:482-529 | `<uses-permission>` keeps every permission and finding it had, and each finding it adds is a report of an unknown permission strictly above the minimum; once stopped, it changes nothing |
| Manifests.PermissionAttributeGrows | src/static_analysis/manifest/mod.rs:488-527 | one attribute of `<uses-permission>` only adds a permission or an unknown-permission report |
| Manifests.PermissionNameGrows | src/static_analysis/manifest/mod.rs:490-526 | a permission name only adds the permission it names or an unknown-permission report |
| Manifests.UsesPermissionName | src/static_analysis/manifest/mod.rs:490-526 | a known name records its permission and nothing else; an unknown one stops the element, records nothing, and adds a report exactly when the configured criticality is strictly above the minimum |
| Manifests.UnknownPermissionStops | src/static_analysis/manifest/mod.rs:521-525 | after an unknown name, no later name of the same element is recorded |
| Manifests.PermissionScanAfterStop | src/static_analysis/manifest/mod.rs:488-527 | once `<uses-permission>` has stopped or failed, the attributes after that change nothing |
| Manifests.FirstEof | src/static_analysis/manifest/mod.rs:279 | the first end-of-document event: no earlier event is one, and the event there is |
| Manifests.LoadEventsGrow | src/static_analysis/manifest/mod.rs:246-288 | over the document's events the flags only go up, and the permissions and findings only grow, keeping the earlier ones in order |
| Manifests.LoadedStopsAtEof | src/static_analysis/manifest/mod.rs:279 | nothing after the end of the document is read |
| Manifests.FlagFinding | src/static_analysis/manifest/mod.rs:98-172 | a flag rule's finding has that rule's criticality, name and description |
| Manifests.SelectedCases | src/static_analysis/manifest/mod.rs:98-101 | a flag rule is selected exactly when its flag is up and its criticality reaches the minimum |
| Manifests.ReportedPermissionsStep | src/static_analysis/manifest/mod.rs:174-194 | one more configured permission is reported after the earlier ones exactly when the manifest asks for it and it reaches the minimum |
| Manifests.FlagFindingsConcat | src/static_analysis/manifest/mod.rs:98-172 | the findings of two runs of flag rules, one after the other, are those of the joined run |
| Manifests.ReportedFlagsIff | src/static_analysis/manifest/mod.rs:98-172 | each flag rule reports exactly when its flag is up and its criticality reaches the minimum, once and in the order debug, large heap, backup; debug mode is `Critical`, a large heap `Warning`, backups `Medium` |
| Manifests.ReportedPermissionsIff | src/static_analysis/manifest/mod.rs:174-194 | a configured permission is reported exactly when the manifest asks for it and its criticality reaches the minimum, and no more are reported than are configured |
| Manifests.PermissionFinding | src/static_analysis/manifest/mod.rs:180-191 | the finding of a configured permission has that permission's criticality, label and description |
| ManifestLoading.Manifest.constructor | src/static_analysis/manifest/mod.rs:209-236 | a new manifest holds the file's text and the default fields (empty texts, flags down, internal-only install, SDK 0, no target, no permissions) |
| ManifestLoading.Manifest.SetPackage | src/static_analysis/manifest/mod.rs:638-640 | the package becomes the given text, and nothing else changes |
| ManifestLoading.Manifest.SetVersionNumber | src/static_analysis/manifest/mod.rs:646-648 | the version code becomes the given number, and nothing else changes |
| ManifestLoading.Manifest.SetVersionStr | src/static_analysis/manifest/mod.rs:654-656 | the version name becomes the given text, and nothing else changes |
| ManifestLoading.Manifest.SetLabel | src/static_analysis/manifest/mod.rs:662-664 | the label becomes the given text, and nothing else changes |
| ManifestLoading.Manifest.SetDescription | src/static_analysis/manifest/mod.rs:670-672 | the description becomes the given text, and nothing else changes |
| ManifestLoading.Manifest.SetMinSdk | src/static_analysis/manifest/mod.rs:678-680 | the minimum SDK becomes the given level, and nothing else changes |
| ManifestLoading.Manifest.SetTargetSdk | src/static_analysis/manifest/mod.rs:686-688 | the target SDK becomes present with the given level, and nothing else changes |
| ManifestLoading.Manifest.SetInstallLocation | src/static_analysis/manifest/mod.rs:710-712 | the install location becomes the given one, and nothing else changes |
| ManifestLoading.Manifest.SetHasCode | src/static_analysis/manifest/mod.rs:690-692 | the `hasCode` flag goes up, and nothing else changes |
| ManifestLoading.Manifest.SetAllowsBackup | src/static_analysis/manifest/mod.rs:698-700 | the backup flag goes up, and nothing else changes |
| ManifestLoading.Manifest.SetLargeHeap | src/static_analysis/manifest/mod.rs:706-708 | the large-heap flag goes up, and nothing else changes |
| ManifestLoading.Manifest.SetDebug | src/static_analysis/manifest/mod.rs:718-720 | the debug flag goes up, and nothing else changes |
| ManifestLoading.Manifest.ManifestKeyed | src/static_analysis/manifest/mod.rs:298-332 | one recognised attribute of `<manifest>` changes the fields as `Manifests.ManifestAttribute` says, or fails and leaves them as they were |
| ManifestLoading.Manifest.ManifestStep | src/static_analysis/manifest/mod.rs:295-333 | one attribute of `<manifest>`, malformed or not, updates the fields as the handler of `<manifest>` says |
| ManifestLoading.Manifest.ParseManifestAttributes | src/static_analysis/manifest/mod.rs:294-335 | the attributes of `<manifest>` are handled in order until the first failure, and the fields and the error end as `Manifests.AttributesAfter` says |
| ManifestLoading.Manifest.SdkKeyed | src/static_analysis/manifest/mod.rs:341-369 | one recognised attribute of `<uses-sdk>` changes the fields as `Manifests.SdkAttribute` says, or fails and leaves them as they were |
| ManifestLoading.Manifest.SdkStep | src/static_analysis/manifest/mod.rs:338-370 | one attribute of `<uses-sdk>` updates the fields as the handler of `<uses-sdk>` says |
| ManifestLoading.Manifest.ParseSdkAttributes | src/static_analysis/manifest/mod.rs:337-373 | the attributes of `<uses-sdk>` are handled in order until the first failure, as `Manifests.AttributesAfter` says |
| ManifestLoading.Manifest.ApplicationKeyed | src/static_analysis/manifest/mod.rs:387-477 | one recognised attribute of `<application>` changes the fields as `Manifests.ApplicationAttribute` says, or fails and leaves them as they were |
| ManifestLoading.Manifest.ApplicationStep | src/static_analysis/manifest/mod.rs:384-478 | one attribute of `<application>` updates the fields as the handler of `<application>` says |
| ManifestLoading.Manifest.ParseApplicationAttributes | src/static_analysis/manifest/mod.rs:375-480 | the attributes of `<application>` are handled in order until the first failure, as `Manifests.AttributesAfter` says |
| ManifestLoading.Manifest.PermissionNamed | src/static_analysis/manifest/mod.rs:490-526 | a `name` of `<uses-permission>` raises the permission it names, or, when unknown, adds the unknown-permission report as `Manifests.PermissionName` says and stops; the application's identity in the results is untouched |
| ManifestLoading.Manifest.ParsePermissionAttributes | src/static_analysis/manifest/mod.rs:482-529 | the permission flags and the findings added end as `Manifests.PermissionScanOf` says, with the error of a malformed attribute returned |
| ManifestLoading.Manifest.ScanExportedAttributes | src/static_analysis/manifest/mod.rs:538-584 | the attribute loop of a component yields exactly `Manifests.ExportedScanOf`: the last boolean `exported`, the last UTF-8 `name`, or the first malformed attribute's error |
| ManifestLoading.Manifest.CheckExportedAttributes | src/static_analysis/manifest/mod.rs:531-624 | a component adds exactly the findings `Manifests.ExportedFindings` gives it, and nothing when an attribute is malformed |
| ManifestLoading.Manifest.StartElement | src/static_analysis/manifest/mod.rs:248-277 | a start tag goes to the handler of its element (`manifest`, `uses-sdk`, `application`, `uses-permission`, or one of the five components) and changes the manifest and the findings as `Manifests.ElementStart` says; any other tag changes nothing |
| ManifestLoading.Manifest.Load | src/static_analysis/manifest/mod.rs:230-291 | without the file there is no manifest and nothing is reported; otherwise the events up to the end of the document give the manifest, its permissions and the findings `Manifests.Loaded` says, and the application's identity in the results is untouched |
| ManifestLoading.CopyIdentity | src/static_analysis/manifest/mod.rs:87-96 | the package, label, description, version name and code and minimum SDK are copied into the results, the target SDK only when the manifest gives one, and no finding changes |
| ManifestLoading.CheckFlag | src/static_analysis/manifest/mod.rs:98-122 | a flag rule adds its finding exactly when its flag is up and its criticality reaches the minimum |
| ManifestLoading.CheckFlags | src/static_analysis/manifest/mod.rs:98-172 | the three flag rules run in turn, each adding its finding exactly when selected |
| ManifestLoading.ReportFlags | src/static_analysis/manifest/mod.rs:98-172 | the flag findings added are those of `Manifests.ReportedFlags`, in order: debug mode, large heap, backups |
| ManifestLoading.ReportPermissions | src/static_analysis/manifest/mod.rs:174-194 | the findings added are those of the configured permissions the manifest asks for that reach the minimum, in the configuration's order |
| ManifestLoading.ReportManifest | src/static_analysis/manifest/mod.rs:87-194 | the manifest's identity goes into the results, then the flag findings and then the permission findings, as `Manifests.AnalysisFindings` says |
| ManifestLoading.Analysis | src/static_analysis/manifest/mod.rs:30-207 | with no manifest file, nothing is returned and the results are unchanged; otherwise the loaded manifest is returned, the results hold its identity, and the findings added are those of loading followed by those of the flag and permission rules |
| ManifestOld.InstallLocationFromStr | src/static_analysis/manifest.rs:662-672 | a text is parsed as a location exactly when it is that location's name, and any other text is a `Parse` error |
| ManifestOld.InstallLocationAsNewer | src/static_analysis/manifest.rs:717-732 | the older and the newer parser accept the same names for the same locations; every name parses back to its location, and `Razican` is refused |
| ManifestOld.GetLine | src/static_analysis/manifest.rs:674-682 | the first line containing the text, found exactly when the newer `get_line` finds one and at the same line, and `CodeNotFound` otherwise |
| ManifestOld.ManifestAttribute | src/static_analysis/manifest.rs:271-310 | an attribute of `<manifest>` breaks the loop exactly when its version code is not a `u32` or its install location is none of the three names, and otherwise changes at most the package, the version code and name and the install location |
| ManifestOld.SdkAttribute | src/static_analysis/manifest.rs:312-349 | an attribute of `<uses-sdk>` breaks the loop exactly when its level is not a `u32`, and otherwise changes at most the minimum and target SDK |
| ManifestOld.ApplicationAttribute | src/static_analysis/manifest.rs:351-443 | an attribute of `<application>` breaks the loop exactly when it is a flag that is not a boolean or a `@string/` label that does not resolve; otherwise it never lowers a flag and changes at most the flags, the description and the label |
| ManifestOld.AttributesStopAtBreak | src/static_analysis/manifest.rs:287 | a `break` ends the element: the attributes after it change nothing |
| ManifestOld.BreakAt | src/static_analysis/manifest.rs:287 | the loop over all attributes ends with what it had read before the first attribute that breaks it |
| ManifestOld.AttributesRaiseFlagsOnly | src/static_analysis/manifest.rs:271-443 | over any attributes, no handler lowers a flag |
| ManifestOld.HandleKeyedAsNewer | src/static_analysis/manifest.rs:276-306 | a readable value is handled by the older and the newer handler alike |
| ManifestOld.AttributesAsNewer | src/static_analysis/manifest.rs:271-443 | where every attribute is readable, the older loop reads exactly the fields the newer loop reads |
| ManifestOld.UnreadableKeyed | src/static_analysis/manifest.rs:358-439 | a flag of `<application>` that is not a boolean, or a label that does not resolve, breaks the older loop, while the newer handler leaves the fields as they are |
| ManifestOld.ApplicationBreaksAtUnreadable | src/static_analysis/manifest.rs:356-439 | an unreadable first attribute of `<application>` ends the older loop with nothing read |
| ManifestOld.NewerSkipsUnreadable | src/static_analysis/manifest/mod.rs:388-400 | the newer loop skips that same unreadable attribute and reads the rest |
| ManifestOld.PermissionScanAfterStop | src/static_analysis/manifest.rs:479 | once the permission loop has stopped, the attributes after that change nothing |
| ManifestOld.PermissionStopsAt | src/static_analysis/manifest.rs:479 | the permission loop's result over all attributes is its result where it stopped |
| ManifestOld.UnknownPermissionBreaks | src/static_analysis/manifest.rs:454-479 | an unknown name ends the element with no permission recorded, and is reported exactly when its configured criticality is strictly above the minimum |
| ManifestOld.PermissionScanAsNewer | src/static_analysis/manifest.rs:445-484 | the older permission loop records and reports what the newer one does, and never fails |
| ManifestOld.ExportedAsNewer | src/static_analysis/manifest.rs:486-546 | a component is reported exactly as the newer `check_exported_attributes` reports it |
| ManifestOld.ElementStartAsNewer | src/static_analysis/manifest.rs:236-256 | a start tag whose attributes the older handlers can read changes the manifest and the findings as the newer handler does |
| ManifestOld.LoadedAsNewer | src/static_analysis/manifest.rs:221-268 | on a document whose values the older handlers can all read, the older `load` builds the same manifest, permissions and findings as the newer one |
| ManifestOld.ManifestKeyed | src/static_analysis/manifest.rs:276-306 | one recognised attribute of `<manifest>` changes the fields as `ManifestOld.ManifestAttribute` says, and reports the `break` |
| ManifestOld.ManifestStep | src/static_analysis/manifest.rs:275-307 | one attribute of `<manifest>` updates the fields as the older handler says |
| ManifestOld.ParseManifestAttributes | src/static_analysis/manifest.rs:271-310 | the fields end as the older loop over `<manifest>` says, up to its `break` |
| ManifestOld.SdkKeyed | src/static_analysis/manifest.rs:317-345 | one recognised attribute of `<uses-sdk>` changes the fields as `ManifestOld.SdkAttribute` says, and reports the `break` |
| ManifestOld.SdkStep | src/static_analysis/manifest.rs:316-346 | one attribute of `<uses-sdk>` updates the fields as the older handler says |
| ManifestOld.ParseSdkAttributes | src/static_analysis/manifest.rs:312-349 | the fields end as the older loop over `<uses-sdk>` says, up to its `break` |
| ManifestOld.ApplicationFlag | src/static_analysis/manifest.rs:358-422 | a flag of `<application>` is read exactly when its value is a boolean, and goes up exactly when the value is `true` |
| ManifestOld.ApplicationKeyed | src/static_analysis/manifest.rs:357-440 | one recognised attribute of `<application>` changes the fields as `ManifestOld.ApplicationAttribute` says, and reports the `break` |
| ManifestOld.FlagAttribute | src/static_analysis/manifest.rs:358-422 | a flag attribute is a boolean that raises the flag only when it is `true`, and breaks otherwise |
| ManifestOld.ApplicationLabel | src/static_analysis/manifest.rs:423-439 | a `@string/` label that does not resolve breaks the loop; any other label is set |
| ManifestOld.ApplicationStep | src/static_analysis/manifest.rs:356-441 | one attribute of `<application>` updates the fields as the older handler says |
| ManifestOld.ParseApplicationAttributes | src/static_analysis/manifest.rs:351-443 | the fields end as the older loop over `<application>` says, up to its `break` |
| ManifestOld.PermissionStep | src/static_analysis/manifest.rs:454-482 | one attribute of `<uses-permission>` changes the permissions and the findings as the older loop says |
| ManifestOld.ParsePermissionAttributes | src/static_analysis/manifest.rs:445-484 | the permissions and findings end as the older permission loop says |
| ManifestOld.ScanExportedAttributes | src/static_analysis/manifest.rs:496-508 | the attribute loop of a component yields the last boolean `exported` and the last `name` |
| ManifestOld.CheckExportedAttributes | src/static_analysis/manifest.rs:486-546 | a component adds exactly the findings the exported-component rule gives it |
| ManifestOld.StartElement | src/static_analysis/manifest.rs:236-256 | a start tag goes to its element's handler and changes the manifest and the findings as the older handlers say |
| ManifestOld.Load | src/static_analysis/manifest.rs:221-268 | without the file there is no manifest; otherwise every event is walked and the manifest, its permissions and the findings are what the older `load` builds |
| ManifestOld.Analysis | src/static_analysis/manifest.rs:21-198 | with no manifest file, nothing is returned and the results are unchanged; otherwise the loaded manifest is returned, with its identity, flag findings and permission findings reported as in the newer `analysis` |

## Left out

- Concurrency: the worker threads of the code analysis are a sequential loop; the lock held across each worker's body makes the newer analysis serial anyway (`CodeAnalysis.Workers` is 0 or 1), and the poisoning of the lock by a panic is modelled as the end of the walk.
- The progress loop of the verbose code analysis, which spins when the lock is poisoned, is not modelled.
- Filesystem and process I/O: file contents, directory listings, `read_dir`/`metadata` errors, the `openssl` output and the string resources (`get_string`) are parameters; a directory error gives a failure together with what was collected before it.
- Decompilation (`apktool`, `dex2jar`, `jd-cmd`), report writing and `copy_folder` are not part of this model.
- The XML reader (quick_xml, and xml-rs in the older file) is replaced by the list of events and attributes it yields, each value marked as UTF-8 or not.
- Regular expressions are abstract: a compiled expression is a value with its match positions, captures and capture names given as functions; compilation can fail.
- The ELF parser is replaced by the sections it yields; reading a section that fails ends the walk of the architecture, as the panic it causes ends the thread.
- Today's date (`Local::now()`) is a parameter of the certificate analysis.
- `from_utf8_lossy` on the `openssl` output is not modelled: the output is given as text.
- Hashing: `FingerPrint` (MD5, SHA-1, SHA-256) is not modelled, and the results' fingerprint field is an opaque parameter.
- Floating point: the padding of `ReportIndex` (src/results/handlebars_helpers.rs:251-301) uses `f64::log10` and is not modelled.
- Logging and printing (`print_warning`, `print_vulnerability`, verbose output, colours) are not modelled; a warning is only the branch that leads to it.
- `Config::from_file` (reading the TOML file) is not modelled; the value readers it calls (threads, unknown permission) are.
- The Windows defaults of `Config` are not modelled; the Unix ones are.
- The number of CPUs (`num_cpus::get()`) is a parameter of `Config.Default`.
- The report templates and Handlebars rendering itself are not modelled; the helpers are given the JSON values they read.
- The rule-content tests of the code analysis check an external `rules.json` and are not modelled.
- String slicing in the certificate analysis and `get_line_for` count characters, not UTF-8 bytes; the two agree on ASCII text.
- `HandlebarsHelpers.RenderMenu`: the partial output written before an error is not modelled; an error yields no output.
- `HandlebarsHelpers.LineNumbersCall`: the panic of a window that starts past its end is the error result.
- `HandlebarsHelpers.HtmlCodeCall`: the `as usize` conversion of the line numbers wraps as on a 64-bit target.
- `BinaryAnalysis.AnalyzeLib`: a rule matching a string n times gives n equal findings, which the results' sets then merge.
- `CertificateAnalysis.AnalyzeCertificate`: the comparison of issuer and subject has no effect on the findings and is not modelled.
- `ResultsOld`: the order of the older `Criticity` is not part of this model's sources; it is taken as `Low < Medium < High < Critical`.
- `ManifestOld.Load`: the older `break` on an unreadable `<application>` value is modelled; xml-rs's own end of document is the end of the event list.
- `Vulnerabilities.CmpOptString`: a finding's file is a `PathBuf` in the source (src/results/utils.rs:31), whose `Eq` and `Ord` compare path components; the model keeps the path as text and compares it character by character. The two differ on paths with repeated or trailing separators or `.` segments (`src//A.java` and `src/A.java` are one path in the source and two here), and on the order of paths where one component is a proper prefix of the other's and is followed by a character below `/` (`a/b` sorts before `a.b` in the source and after it here). `Vulnerabilities.PartialCmpLaws`, `Vulnerabilities.DerivedCmpLaws` and the set buckets of `ResultsStore` inherit this.
- `ResultsStore.Results.AddVulnerability`: a bucket is a set, so the order in which a `BTreeSet` bucket is iterated, and with it the order of the findings in the report, is not modelled.
- `CodeAnalysis.FindingSnippet`: the snippet of a code-analysis finding is the corrected window (`Snippets.IntendedSnippet`), not `get_code` as written, which drops a finding's later lines when it starts before line 5 and ends past the window; see Findings.
- `CodeAnalysis.Finding`: carries that corrected snippet, so for a match that starts before line 5 and spans several lines its code differs from the program's.
- `CodeAnalysis.AnalyzeCode`: the findings it adds carry the corrected snippet, as `CodeAnalysis.Finding` says.

## Findings

| source | as written | input that shows it | evidently intended | confidence | as-written member | corrected member |
|---|---|---|---|---|---|---|
| src/utils.rs:69 | when `s_line < 5`, `get_code` keeps the lines before `s_line + 5` only, so a finding that starts early and ends late loses its own last lines | `s_line = 2`, `e_line = 10` on a fifteen-line text gives lines 0-6, leaving out lines 7-10 of the finding | the window from `max(s_line - 4, 0)` to `e_line + 4`, covering every line of the finding | not executed | Snippets.GetCodeDropsFindingLines | Snippets.IntendedSnippetCoversFinding |
| src/results/handlebars_helpers.rs:102-107 | `all_lines` numbers the newlines of the code, so a last line without a final newline gets no number while `all_code` still shows it | the code `a` gets no line number but one code line | one number for each line `all_code` shows | not executed | HandlebarsHelpers.AllLinesMissesUnterminatedLine | HandlebarsHelpers.IntendedAllLinesNumbersEveryLine |
