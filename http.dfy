/** The slice of net/http the handlers and the client touch: requests as the server reads
    them, the responses handlers write, and replies as the client receives them. Header
    names are written in Go's canonical form, so "X-Specht-ID" is IdHeader. */
module Http {
  import opened Bytes

  datatype Method = Get | Post | OtherMethod(name: Str)

  /** Header or query values by name (the first value, where Go keeps several). */
  type Fields = map<string, Str>

  /** Header.Get and Values.Get: the value, or "" when absent. */
  function Field(f: Fields, name: string): Str {
    if name in f then f[name] else []
  }

  /** A request; `body` is None when reading the body fails on the server. */
  datatype Request = Request(verb: Method, path: string, header: Fields, query: Fields, body: Option<Str>)

  /** What a handler writes. Panic is a handler that panics, after which net/http drops
      the connection without an answer. */
  datatype Response =
    | NotFound
    | BadRequest
    | InternalServerError
    | OK(header: Fields, body: Str)
    | Panic

  /** A reply as the client sees it; `readFailed` says reading `body` stopped with an error. */
  datatype Reply = Reply(status: int, header: Fields, body: Str, readFailed: bool)

  datatype Exchange = Delivered(reply: Reply) | TransportFailed

  const IdHeader := "X-Specht-Id"
  const SpechtHeader := "X-Specht"
  const CookieHeader := "Cookie"
  const SetCookieHeader := "Set-Cookie"

  /** The cookie name and separator, "Specht=". */
  const CookiePrefix: Str := S("Specht=")

  const KexPath := "/v1/kex"
  const ConfigPath := "/v1/config"
  const DataPath := "/v1/data"
  const LogPath := "/v1/log"

  /** A response as it reaches a client over a connection that delivers it intact. */
  function Deliver(r: Response): Exchange {
    match r
    case NotFound => Delivered(Reply(404, map[], [], false))
    case BadRequest => Delivered(Reply(400, map[], [], false))
    case InternalServerError => Delivered(Reply(500, map[], [], false))
    case OK(h, b) => Delivered(Reply(200, h, b, false))
    case Panic => TransportFailed
  }
}
