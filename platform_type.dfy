/** The kind of host the render context runs on (`PlatformType` in render/src/cx.rs). */
module PlatformTypes {

  /** Rust's `u16`: the port of a browser location. */
  newtype U16 = x: int | 0 <= x < 0x1_0000

  /** One constructor per variant of the source enum, with the same fields. */
  datatype PlatformType =
    | Unknown
    | MsWindows
    | OSX
    | Linux(customWindowChrome: bool)
    | WebBrowser(protocol: string, hostname: string, port: U16,
                 pathname: string, search: string, hash: string)

  /** Whether the context runs as a native desktop application: every host
      except a web browser, whatever fields the variant carries. */
  function IsDesktop(p: PlatformType): (r: bool)
    ensures r <==> !p.WebBrowser?
    ensures r <==> (p.Unknown? || p.MsWindows? || p.OSX? || p.Linux?)
  {
    match p
    case Unknown => true
    case MsWindows => true
    case OSX => true
    case Linux(_) => true
    case WebBrowser(_, _, _, _, _, _) => false
  }
}
