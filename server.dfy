/** server/server.go: the request handlers, run one request at a time against the
    registry of client public keys. */
module Server {
  import opened Bytes
  import opened Base64Url
  import opened ClientIds
  import opened Crypto
  import opened Messages
  import opened Http
  import opened Decimal

  /** The EICAR anti-virus test string: the canary New configures when none is given. */
  const Eicar: Str := S(@"X5O!P%@AP[4\PZX54(P^)7CC)7}$EICAR-STANDARD-ANTIVIRUS-TEST-FILE!$H+H*")

  const DefaultHostname: Str := S("localhost")

  const DefaultPort: int := 80

  /** The defaults New fills in: a hostname, one canary, one port. */
  function WithDefaults(c: Config): (r: Config)
    ensures r.hostname != [] && r.httpPorts != [] && r.magicStrings != []
    ensures r.hostname == (if c.hostname == [] then DefaultHostname else c.hostname)
    ensures r.magicStrings == (if c.magicStrings == [] then [Eicar] else c.magicStrings)
    ensures r.httpPorts == (if c.httpPorts == [] then [DefaultPort] else c.httpPorts)
  {
    var hostname := if c.hostname == [] then DefaultHostname else c.hostname;
    var canaries := if |c.magicStrings| == 0 then [Eicar] else c.magicStrings;
    var ports := if |c.httpPorts| == 0 then [DefaultPort] else c.httpPorts;
    Config(hostname, ports, canaries)
  }

  /** Applying the defaults twice changes nothing more, and a complete configuration is kept. */
  lemma DefaultsIdempotent(c: Config)
    ensures WithDefaults(WithDefaults(c)) == WithDefaults(c)
    ensures c.hostname != [] && c.httpPorts != [] && c.magicStrings != [] ==> WithDefaults(c) == c
  {
  }

  /** The ports New hands to net.Listen, as written: those of the configuration it was
      given, before the defaults. */
  function ListenPortsAsWritten(given: Config): seq<int> {
    given.httpPorts
  }

  /** The ports New evidently means to listen on: those of the configuration it serves. */
  function ListenPorts(given: Config): (ps: seq<int>)
    ensures ps != [] && ps == WithDefaults(given).httpPorts
  {
    WithDefaults(given).httpPorts
  }

  /** As written, a configuration without ports listens on no port at all while the
      configuration served to clients advertises port 80. */
  lemma ListenPortsAsWrittenIgnoresDefault(given: Config)
    requires given.httpPorts == []
    ensures ListenPortsAsWritten(given) == []
    ensures WithDefaults(given).httpPorts == [DefaultPort]
    ensures ListenPorts(given) == [DefaultPort]
  {
  }

  /** getClient: the identity in the X-Specht-Id header. */
  function GetClient(r: Request): (c: Result<ClientId, IdError>)
    ensures c.Success? <==> |Field(r.header, IdHeader)| == 32 && AllUrlChars(Field(r.header, IdHeader))
    ensures c.Success? ==> Format(c.value) == Field(r.header, IdHeader)
  {
    ParseAccepts(Field(r.header, IdHeader));
    Parse(Field(r.header, IdHeader))
  }

  /** The cookie channel: the Cookie header with its "Specht=" prefix stripped; any other
      cookie counts as "". */
  function CookieValue(cookie: Str): (v: Str)
    ensures HasPrefix(cookie, CookiePrefix) ==> CookiePrefix + v == cookie
    ensures !HasPrefix(cookie, CookiePrefix) ==> v == []
  {
    if HasPrefix(cookie, CookiePrefix) then cookie[|CookiePrefix|..] else []
  }

  /** The body channel: a body that cannot be read counts as "". */
  function BodyValue(body: Option<Str>): Str {
    match body
    case None => []
    case Some(b) => b
  }

  /** The largest index whose canary equals v exactly, -1 when none does. */
  function LastMatch(canaries: seq<Str>, v: Str): (i: int)
    ensures -1 <= i < |canaries|
    ensures i == -1 <==> v !in canaries
    ensures i >= 0 ==> canaries[i] == v && forall j :: i < j < |canaries| ==> canaries[j] != v
    decreases |canaries|
  {
    if |canaries| == 0 then -1
    else if canaries[|canaries| - 1] == v then |canaries| - 1
    else
      assert canaries == canaries[..|canaries| - 1] + [canaries[|canaries| - 1]];
      LastMatch(canaries[..|canaries| - 1], v)
  }

  /** Matching one more canary: it wins if it equals v, else the earlier answer stands. */
  lemma LastMatchStep(canaries: seq<Str>, i: nat, v: Str)
    requires i < |canaries|
    ensures LastMatch(canaries[..i + 1], v) == if canaries[i] == v then i else LastMatch(canaries[..i], v)
  {
    assert canaries[..i + 1][i] == canaries[i];
    assert canaries[..i + 1][..i] == canaries[..i];
  }

  /** What patternPost reports: each channel of the request matched against all canaries. */
  function Observe(canaries: seq<Str>, r: Request): ProbeResult {
    ProbeResult(
      LastMatch(canaries, Field(r.header, SpechtHeader)),
      LastMatch(canaries, CookieValue(Field(r.header, CookieHeader))),
      LastMatch(canaries, BodyValue(r.body)))
  }

  /** What patternGet writes for a valid canary: the canary in exactly the channels whose
      query flag is "1". */
  function Mirror(pattern: Str, q: Fields): (resp: Response)
    ensures resp.OK?
    ensures resp.header.Keys <= {SpechtHeader, SetCookieHeader}
    ensures SpechtHeader in resp.header <==> Field(q, "header") == S("1")
    ensures SpechtHeader in resp.header ==> resp.header[SpechtHeader] == pattern
    ensures SetCookieHeader in resp.header <==> Field(q, "cookie") == S("1")
    ensures SetCookieHeader in resp.header ==> resp.header[SetCookieHeader] == CookiePrefix + pattern
    ensures resp.body == if Field(q, "body") == S("1") then pattern else []
  {
    var h: Fields := if Field(q, "header") == S("1") then map[SpechtHeader := pattern] else map[];
    var c: Fields := if Field(q, "cookie") == S("1") then map[SetCookieHeader := CookiePrefix + pattern] else map[];
    OK(h + c, if Field(q, "body") == S("1") then pattern else [])
  }

  /** The entries of a reported batch, each tagged with the identity that sent it. */
  function Tagged(id: ClientId, es: seq<LogEntry>): (t: seq<(ClientId, LogEntry)>)
    ensures |t| == |es| && forall i :: 0 <= i < |es| ==> t[i] == (id, es[i])
  {
    seq(|es|, i requires 0 <= i < |es| => (id, es[i]))
  }

  class Server {
    var config: Config
    /** Server.PubKeys: the registry of client public keys. */
    var pubKeys: map<ClientId, Key>
    /** The sink of the log handler's log.Printf: each reported entry with its sender. */
    var journal: seq<(ClientId, LogEntry)>
    /** The ports net.Listen is asked for: those of the configuration New was given. */
    const ports: seq<int>
    const box: Box
    const ctx: Context
    const json: Json

    /** New, once its key pair exists. */
    constructor (config: Config, box: Box, ctx: Context, json: Json)
      ensures this.config == WithDefaults(config) && pubKeys == map[] && journal == []
      ensures ports == ListenPortsAsWritten(config)
      ensures this.box == box && this.ctx == ctx && this.json == json
    {
      this.config := WithDefaults(config);
      pubKeys := map[];
      journal := [];
      ports := ListenPortsAsWritten(config);
      this.box, this.ctx, this.json := box, ctx, json;
    }

    /** The registered key of the requesting client, or the answer to a client that is
        not identified (NotFound) or not registered (BadRequest). */
    function Peer(r: Request): (k: Result<(ClientId, Key), Response>)
      reads this`pubKeys
      ensures GetClient(r).Failure? <==> k == Failure(NotFound)
      ensures GetClient(r).Success? && GetClient(r).value !in pubKeys <==> k == Failure(BadRequest)
      ensures k.Success? <==> GetClient(r).Success? && GetClient(r).value in pubKeys
      ensures k.Success? ==> k.value.0 == GetClient(r).value && k.value.1 == pubKeys[k.value.0]
    {
      match GetClient(r)
      case Failure(_) => Failure(NotFound)
      case Success(id) => if id in pubKeys then Success((id, pubKeys[id])) else Failure(BadRequest)
    }

    /** kex: registers the 32-byte body as the client's key, overwriting any earlier one,
        and answers with the server's public key. */
    method Kex(r: Request) returns (resp: Response)
      modifies this`pubKeys
      ensures GetClient(r).Failure? || r.verb != Post ==> resp == NotFound && pubKeys == old(pubKeys)
      ensures GetClient(r).Success? && r.verb == Post && !(r.body.Some? && |r.body.value| == KeySize) ==>
                resp == BadRequest && pubKeys == old(pubKeys)
      ensures GetClient(r).Success? && r.verb == Post && r.body.Some? && |r.body.value| == KeySize ==>
                resp == OK(map[], ctx.pubKey) &&
                pubKeys == old(pubKeys)[GetClient(r).value := r.body.value]
    {
      var id := GetClient(r);
      if id.Failure? || r.verb != Post {
        return NotFound;
      }
      if r.body.None? || |r.body.value| != KeySize {
        return BadRequest;
      }
      var pubkey: Key := r.body.value;
      pubKeys := pubKeys[id.value := pubkey];
      resp := OK(map[], ctx.pubKey);
    }

    /** config: the served configuration, encrypted to the client's registered key. */
    function ServeConfig(r: Request, nonce: Option<Nonce>): (resp: Response)
      reads this`pubKeys, this`config
      ensures GetClient(r).Failure? || r.verb != Get ==> resp == NotFound
      ensures r.verb == Get && Peer(r).Failure? ==> resp == Peer(r).error
      ensures r.verb == Get && Peer(r).Success? && nonce.None? ==> resp == InternalServerError
      ensures r.verb == Get && Peer(r).Success? && nonce.Some? ==>
                resp.OK? && resp.header == map[] && |resp.body| >= NonceSize &&
                resp.body[..NonceSize] == nonce.value &&
                resp.body[NonceSize..] == box.seal(json.config(config), nonce.value, Peer(r).value.1, ctx.privKey)
    {
      if GetClient(r).Failure? || r.verb != Get then NotFound
      else
        match Peer(r)
        case Failure(answer) => answer
        case Success((_, pubkey)) =>
          match Encrypt(box, ctx, pubkey, nonce, json.config(config))
          case Failure(_) => InternalServerError
          case Success(buf) => OK(map[], buf)
    }

    /** What patternPost answers: an unidentified or unregistered client is refused as by
        Peer, a failed nonce is a server error, and otherwise the body is the nonce followed
        by the observed ProbeResult sealed to the client's key. */
    function PatternPostResponse(r: Request, nonce: Option<Nonce>): (resp: Response)
      reads this`pubKeys, this`config
      ensures Peer(r).Failure? ==> resp == Peer(r).error
      ensures Peer(r).Success? && nonce.None? ==> resp == InternalServerError
      ensures Peer(r).Success? && nonce.Some? ==>
                resp.OK? && resp.header == map[] && |resp.body| >= NonceSize &&
                resp.body[..NonceSize] == nonce.value &&
                resp.body[NonceSize..] ==
                  box.seal(json.result(Observe(config.magicStrings, r)), nonce.value, Peer(r).value.1, ctx.privKey)
    {
      match Peer(r)
      case Failure(answer) => answer
      case Success((_, pubkey)) =>
        match Encrypt(box, ctx, pubkey, nonce, json.result(Observe(config.magicStrings, r)))
        case Failure(_) => InternalServerError
        case Success(buf) => OK(map[], buf)
    }

    /** patternPost: matches each channel against every canary in turn, later matches
        overwriting earlier ones. */
    method PatternPost(r: Request, nonce: Option<Nonce>) returns (resp: Response)
      ensures resp == PatternPostResponse(r, nonce)
    {
      var peer := Peer(r);
      if peer.Failure? {
        return peer.error;
      }
      var response := NoMatch;
      var c := CookieValue(Field(r.header, CookieHeader));
      var h := Field(r.header, SpechtHeader);
      var b := BodyValue(r.body);
      var canaries := config.magicStrings;
      for i := 0 to |canaries|
        invariant response.cookie == LastMatch(canaries[..i], c)
        invariant response.header == LastMatch(canaries[..i], h)
        invariant response.body == LastMatch(canaries[..i], b)
      {
        LastMatchStep(canaries, i, c);
        LastMatchStep(canaries, i, h);
        LastMatchStep(canaries, i, b);
        if c == canaries[i] {
          response := response.(cookie := i);
        }
        if h == canaries[i] {
          response := response.(header := i);
        }
        if b == canaries[i] {
          response := response.(body := i);
        }
      }
      assert canaries[..|canaries|] == canaries;
      var buf := Encrypt(box, ctx, peer.value.1, nonce, json.result(response));
      if buf.Failure? {
        return InternalServerError;
      }
      resp := OK(map[], buf.value);
    }

    /** patternGet as written: a negative id passes the range check and then indexes the
        canaries out of range, which panics. */
    function PatternGetAsWritten(r: Request): (resp: Response)
      reads this`config
      ensures var id := Atoi(Field(r.query, "id"));
              id.Some? && id.value < 0 ==> resp == Panic
      ensures var id := Atoi(Field(r.query, "id"));
              !(id.Some? && id.value < 0) ==> resp == PatternGet(r)
    {
      match Atoi(Field(r.query, "id"))
      case None => BadRequest
      case Some(id) =>
        if id >= |config.magicStrings| then BadRequest
        else if id < 0 then Panic
        else Mirror(config.magicStrings[id], r.query)
    }

    /** patternGet with the evidently intended range check: any id that is not an index of
        a canary is a bad request; a valid one mirrors that canary. */
    function PatternGet(r: Request): (resp: Response)
      reads this`config
      ensures var id := Atoi(Field(r.query, "id"));
              resp == BadRequest <==> !(id.Some? && 0 <= id.value < |config.magicStrings|)
      ensures var id := Atoi(Field(r.query, "id"));
              id.Some? && 0 <= id.value < |config.magicStrings| ==>
                resp == Mirror(config.magicStrings[id.value], r.query)
    {
      match Atoi(Field(r.query, "id"))
      case None => BadRequest
      case Some(id) =>
        if id < 0 || id >= |config.magicStrings| then BadRequest
        else Mirror(config.magicStrings[id], r.query)
    }

    /** pattern: GET and POST of /v1/data, with patternGet as written; any other method is
        not found. */
    method Pattern(r: Request, nonce: Option<Nonce>) returns (resp: Response)
      ensures r.verb == Get ==> resp == PatternGetAsWritten(r)
      ensures r.verb == Post ==> resp == PatternPostResponse(r, nonce)
      ensures r.verb.OtherMethod? ==> resp == NotFound
    {
      if r.verb == Get {
        resp := PatternGetAsWritten(r);
      } else if r.verb == Post {
        resp := PatternPost(r, nonce);
      } else {
        resp := NotFound;
      }
    }

    /** The batch the log handler accepts: the reporting identity and the decrypted,
        decoded entries, or the answer it gives instead. */
    function LogBatch(r: Request): (b: Result<(ClientId, seq<LogEntry>), Response>)
      reads this`pubKeys
      ensures GetClient(r).Failure? || r.verb != Post ==> b == Failure(NotFound)
      ensures r.verb == Post && Peer(r).Failure? ==> b == Failure(Peer(r).error)
      ensures r.verb == Post && Peer(r).Success? && r.body.None? ==> b == Failure(BadRequest)
      ensures b.Success? <==>
                && r.verb == Post && Peer(r).Success? && r.body.Some?
                && Decrypt(box, ctx, Peer(r).value.1, r.body.value).Success?
                && json.parseEntries(Decrypt(box, ctx, Peer(r).value.1, r.body.value).value).Some?
      ensures b.Success? ==>
                && b.value.0 == GetClient(r).value
                && Some(b.value.1) == json.parseEntries(Decrypt(box, ctx, Peer(r).value.1, r.body.value).value)
      ensures b.Failure? ==> b.error == NotFound || b.error == BadRequest
    {
      if GetClient(r).Failure? || r.verb != Post then Failure(NotFound)
      else
        match Peer(r)
        case Failure(answer) => Failure(answer)
        case Success((id, pubkey)) =>
          match r.body
          case None => Failure(BadRequest)
          case Some(buf) =>
            match Decrypt(box, ctx, pubkey, buf)
            case Failure(_) => Failure(BadRequest)
            case Success(plain) =>
              match json.parseEntries(plain)
              case None => Failure(BadRequest)
              case Some(es) => Success((id, es))
    }

    /** log: records every reported entry, in order, tagged with the sender's identity. */
    method Log(r: Request) returns (resp: Response)
      modifies this`journal
      ensures LogBatch(r).Failure? ==> resp == LogBatch(r).error && journal == old(journal)
      ensures LogBatch(r).Success? ==>
                resp == OK(map[], []) &&
                journal == old(journal) + Tagged(LogBatch(r).value.0, LogBatch(r).value.1)
    {
      var batch := LogBatch(r);
      if batch.Failure? {
        return batch.error;
      }
      var (id, es) := batch.value;
      for i := 0 to |es|
        invariant journal == old(journal) + Tagged(id, es[..i])
      {
        assert Tagged(id, es[..i + 1]) == Tagged(id, es[..i]) + [(id, es[i])];
        journal := journal + [(id, es[i])];
      }
      assert es[..|es|] == es;
      resp := OK(map[], []);
    }
  }

  /** The query id "-1" parses, passes patternGet's range check as written and panics, where
      the intended check refuses it as a bad request. */
  lemma NegativeIdPanics(s: Server, r: Request)
    requires Field(r.query, "id") == S("-1")
    ensures Atoi(S("-1")) == Some(-1)
    ensures s.PatternGetAsWritten(r) == Panic && Deliver(Panic) == TransportFailed
    ensures s.PatternGet(r) == BadRequest
  {
    var d := S("-1");
    assert d[0] == 45 && d[1] == 49;
    assert d[1..] == [49];
    var one: Str := [49];
    assert one[..0] == [];
    assert DigitsValue(one) == 1;
  }

  /** server.New: the key pair comes from `entropy` (None when rand.Reader fails). */
  method New(config: Config, box: Box, entropy: Option<Key>, json: Json) returns (r: Result<Server, CryptoError>)
    ensures entropy.None? ==> r == Failure(RandomnessFailure)
    ensures entropy.Some? ==>
              r.Success? && fresh(r.value) &&
              r.value.config == WithDefaults(config) && r.value.pubKeys == map[] && r.value.journal == [] &&
              r.value.ports == ListenPortsAsWritten(config) &&
              r.value.box == box && r.value.ctx == NewContext(box, entropy).value && r.value.json == json
  {
    var ctx := NewContext(box, entropy);
    if ctx.Failure? {
      return Failure(ctx.error);
    }
    var s := new Server(config, box, ctx.value, json);
    r := Success(s);
  }
}
