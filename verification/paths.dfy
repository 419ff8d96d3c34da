/**
  * The parts of Rust's `Path`/`PathBuf` the analyzer uses, for Unix paths held as text:
  * `file_name`, `extension`, `file_stem`, `join`, `set_extension` and `set_file_name`.
  * Components are separated by `'/'`; repeated separators and `.` components after the
  * first one do not count, and a `..` component has no file name.
  */
module Paths {
  import opened Common
  import Text

  /**
    * The path without what follows its last component: trailing separators and trailing
    * `.` components go, a lone root separator stays.
    */
  function Trim(s: string): (t: string)
    ensures |t| <= |s| && t == s[..|t|]
    ensures |t| > 1 ==> t[|t| - 1] != '/'
    decreases |s|
  {
    if |s| > 1 && s[|s| - 1] == '/' then Trim(s[..|s| - 1])
    else if |s| >= 2 && s[|s| - 2..] == "/." then Trim(s[..|s| - 1])
    else s
  }

  /** Where the last component of `t` starts: just after its last separator. */
  function NameStart(t: string): (i: nat)
    ensures i <= |t|
    ensures '/' !in t[i..]
    ensures i > 0 ==> t[i - 1] == '/'
  {
    if t == [] then 0
    else if t[|t| - 1] == '/' then |t|
    else
      var i := NameStart(t[..|t| - 1]);
      assert t[i..] == t[..|t| - 1][i..] + [t[|t| - 1]];
      i
  }

  /** `file_name`: the last component, unless it is empty, `.` or `..`. */
  function FileName(s: string): (r: Option<string>)
    ensures r.Some? ==> r.value != [] && '/' !in r.value && r.value != "." && r.value != ".."
  {
    var t := Trim(s);
    var n := t[NameStart(t)..];
    if n == [] || n == "." || n == ".." then None else Some(n)
  }

  /** The position of the last `c` in `s`. */
  function LastIndexOf(s: string, c: char): (r: Option<nat>)
    ensures r.Some? ==> r.value < |s| && s[r.value] == c && c !in s[r.value + 1..]
    ensures r.None? <==> c !in s
  {
    if s == [] then None
    else if s[|s| - 1] == c then Some(|s| - 1)
    else
      var r := LastIndexOf(s[..|s| - 1], c);
      assert r.Some? ==> s[r.value + 1..] == s[..|s| - 1][r.value + 1..] + [s[|s| - 1]];
      assert s == s[..|s| - 1] + [s[|s| - 1]];
      r
  }

  /**
    * A file name cut at its last dot: the text after that dot is the extension, unless the
    * dot is the first character (a hidden file such as `.bashrc` has none).
    */
  function ExtensionOfName(n: string): (r: Option<string>)
    ensures r.Some? ==> '.' !in r.value && |r.value| < |n| && n[|n| - |r.value| - 1] == '.'
    ensures r.Some? ==> n == n[..|n| - |r.value| - 1] + "." + r.value
  {
    match LastIndexOf(n, '.')
    case None => None
    case Some(k) => if k == 0 then None else Some(n[k + 1..])
  }

  /** `file_stem` of a file name: the name without its extension and that extension's dot. */
  function StemOfName(n: string): (r: string)
    ensures ExtensionOfName(n).None? ==> r == n
    ensures ExtensionOfName(n).Some? ==> n == r + "." + ExtensionOfName(n).value
  {
    match ExtensionOfName(n)
    case None => n
    case Some(e) => n[..|n| - |e| - 1]
  }

  /** `extension`. */
  function Extension(s: string): (r: Option<string>)
    ensures FileName(s).None? ==> r.None?
    ensures r.Some? ==> '.' !in r.value
  {
    match FileName(s)
    case None => None
    case Some(n) => ExtensionOfName(n)
  }

  /** `join`: an absolute path replaces the base; otherwise a separator is added when needed. */
  function Join(base: string, rel: string): (r: string)
    ensures |rel| > 0 && rel[0] == '/' ==> r == rel
    ensures !(|rel| > 0 && rel[0] == '/') ==> Text.EndsWith(r, rel)
  {
    if |rel| > 0 && rel[0] == '/' then rel
    else if base == [] || base[|base| - 1] == '/' then
      Text.EndsWithConcat(base, rel);
      base + rel
    else
      Text.EndsWithConcat(base + "/", rel);
      base + "/" + rel
  }

  /**
    * `set_extension`: without a file name nothing changes; otherwise the path is cut after
    * the file stem and, for a non-empty extension, `.` and the extension follow.
    */
  function SetExtension(s: string, ext: string): (r: string)
  {
    match FileName(s)
    case None => s
    case Some(n) =>
      var t := Trim(s);
      t[..NameStart(t)] + StemOfName(n) + (if ext == [] then "" else "." + ext)
  }

  /**
    * `set_file_name`: when there is a file name, the path is first cut back to its parent
    * (`pop`); then the new name is joined on.
    */
  function SetFileName(s: string, name: string): (r: string)
  {
    match FileName(s)
    case None => Join(s, name)
    case Some(_) =>
      var t := Trim(s);
      Join(Trim(t[..NameStart(t)]), name)
  }

  /** Joining a relative path onto a base that does not end in a separator adds one separator. */
  lemma JoinRelative(base: string, rel: string)
    requires base != [] && base[|base| - 1] != '/' && !(|rel| > 0 && rel[0] == '/')
    ensures Join(base, rel) == base + "/" + rel
  {
  }

  /** A text without separators that ends in neither `/` nor `.` is its own last component. */
  lemma {:induction false} NameOfPlainTail(x: string, y: string)
    requires '/' !in y && y != [] && y[|y| - 1] != '.'
    requires x == [] || x[|x| - 1] == '/'
    ensures Trim(x + y) == x + y
    ensures NameStart(x + y) == |x|
    ensures (x + y)[NameStart(x + y)..] == y
  {
    var s := x + y;
    assert s[|s| - 1] == y[|y| - 1];
    NameStartNoSep(x, y);
  }

  lemma {:induction false} NameStartNoSep(x: string, y: string)
    requires '/' !in y
    requires x == [] || x[|x| - 1] == '/'
    ensures NameStart(x + y) == |x|
    decreases |y|
  {
    if y == [] {
      assert x + y == x;
    } else {
      assert (x + y)[..|x + y| - 1] == x + y[..|y| - 1];
      NameStartNoSep(x, y[..|y| - 1]);
    }
  }
}
