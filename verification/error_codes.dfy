/** The error kinds of the analyzer and the process exit code each one maps to. */
module ErrorCodes {
  /** The kinds of `ErrorKind`; the payloads (messages, wrapped library errors) do not affect the code. */
  datatype ErrorKind =
    | Parse
    | Toml
    | Json
    | CodeNotFound
    | Config
    | IO
    | TemplateName
    | Template
    | TemplateRender
    | Msg

  /** `Into<i32>`: the exit code of the process when it stops with this error. */
  function ExitCode(k: ErrorKind): int {
    match k
    case Parse | Toml => 20
    case Json => 30
    case CodeNotFound => 40
    case Config => 50
    case IO => 100
    case TemplateName => 125
    case Template => 150
    case TemplateRender => 175
    case Msg => 1
  }

  /**
    * Every code is positive, so an error never reads as success; the template codes rise
    * from name to file to rendering; and only Parse and TOML share a code.
    */
  lemma {:induction false} ExitCodesDistinguishKinds(a: ErrorKind, b: ErrorKind)
    ensures ExitCode(a) > 0
    ensures ExitCode(TemplateName) < ExitCode(Template) < ExitCode(TemplateRender)
    ensures ExitCode(a) == ExitCode(b) <==> a == b || (a in {Parse, Toml} && b in {Parse, Toml})
  {
    match a {
      case Parse =>
      case Toml =>
      case Json =>
      case CodeNotFound =>
      case Config =>
      case IO =>
      case TemplateName =>
      case Template =>
      case TemplateRender =>
      case Msg =>
    }
  }
}
