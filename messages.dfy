/** The records of config.go and messages.go, the client's log messages, and JSON, which
    is a parameter of the model. */
module Messages {
  import opened Bytes
  import opened Crypto

  /** config.go Config */
  datatype Config = Config(hostname: Str, httpPorts: seq<int>, magicStrings: seq<Str>)

  /** messages.go Response: per channel, the index of the canary the server saw there,
      -1 for none. */
  datatype ProbeResult = ProbeResult(header: int, cookie: int, body: int)

  /** The value the client unmarshals the server's answer into. */
  const NoMatch := ProbeResult(-1, -1, -1)

  /** time.Time, abstract. */
  type Timestamp = nat

  /** The three transport channels a probe uses. */
  datatype Channel = Header | Cookie | Body

  datatype Direction = Download | Upload

  /** Why a client step failed. */
  datatype Fault =
    | TransportError           // http.Client.Do failed
    | BadStatus(code: int)     // "expected status code 200, got %d"
    | ReadError                // reading the response body failed
    | CryptoFault(e: CryptoError)
    | JsonError                // json.Unmarshal failed
    | WrongKeyLength(n: nat)   // "expected 32 byte key lengths from server, got %d"

  /** The lines the client logs, kept as values rather than formatted text. */
  datatype Message =
    | ClientIdIs(id: Str)
    | PerformingKeyExchange
    | FetchingConfiguration(url: Str)
    | TryingDownloads
    | TryingUploads
    | ProbeFailed(dir: Direction, xfer: int, index: nat, fault: Fault)
    | Verdict(dir: Direction, xfer: int, index: nat, channel: Channel, found: bool)
    | SubmittingResults
    | EncryptFailed(e: CryptoError)
    | SendFailed(fault: Fault)

  /** messages.go LogEntry */
  datatype LogEntry = LogEntry(ts: Timestamp, msg: Message)

  /** encoding/json for the three payloads, left uninterpreted. Unmarshal takes the value
      it decodes into, since Go keeps the fields the text does not mention. */
  datatype Json = Json(
    config: Config -> Str,
    parseConfig: (Str, Config) -> Option<Config>,
    result: ProbeResult -> Str,
    parseResult: (Str, ProbeResult) -> Option<ProbeResult>,
    entries: seq<LogEntry> -> Str,
    parseEntries: Str -> Option<seq<LogEntry>>)

  /** Unmarshal reads back what Marshal writes. */
  ghost predicate Faithful(json: Json) {
    && (forall c, into :: json.parseConfig(json.config(c), into) == Some(c))
    && (forall r, into :: json.parseResult(json.result(r), into) == Some(r))
    && (forall es :: json.parseEntries(json.entries(es)) == Some(es))
  }
}
