/** A client talking to the server of this model over a connection that delivers every
    response intact: each step of the client, fed the answer of the matching handler,
    comes out as the protocol intends. The client and the server share the box primitive
    and the JSON codec. */
module Scenario {
  import opened Bytes
  import opened ClientIds
  import opened Crypto
  import opened Messages
  import opened Http
  import opened Decimal
  import Server
  import Client

  /** The server recognises the identity that do puts in X-Specht-Id. */
  lemma IdentifiedIsRecognised(id: ClientId, req: Request)
    ensures Server.GetClient(Client.Identified(id, req)) == Success(id)
  {
    Client.IdentifiedFields(id, req);
    ParseFormat(id);
  }

  /** The flags of channels a probe does not select never reach its verdict lines. */
  lemma VerdictsIgnoreUnselected(dir: Direction, p: Client.Probe, h: bool, c: bool, b: bool)
    requires Client.Sends(p.xfer, Header) ==> h
    requires Client.Sends(p.xfer, Cookie) ==> c
    requires Client.Sends(p.xfer, Body) ==> b
    ensures Client.Verdicts(dir, p, h, c, b) == Client.Verdicts(dir, p, true, true, true)
  {
  }

  /** A download probe answered by patternGet: the canary comes back intact in every
      channel the probe selects, so every verdict line says found. */
  lemma DownloadFindsEveryChannel(s: Server.Server, id: ClientId, p: Client.Probe)
    requires p.index < |s.config.magicStrings| && p.index <= MaxInt64
    ensures var req := Client.Identified(id, Client.DownloadRequest(p));
            Client.DownloadOutcome(s.config.magicStrings[p.index], p, Client.Classify(Deliver(s.PatternGetAsWritten(req)))) ==
            Client.Verdicts(Direction.Download, p, true, true, true)
  {
    var canary := s.config.magicStrings[p.index];
    var req := Client.Identified(id, Client.DownloadRequest(p));
    var q := Client.DownloadQuery(p.index, p.xfer);
    Client.IdentifiedFields(id, Client.DownloadRequest(p));
    Client.DownloadQueryFields(p.index, p.xfer);
    AtoiItoa(p.index);
    assert req.query == q;
    var resp := s.PatternGetAsWritten(req);
    assert resp == Server.Mirror(canary, q);
    assert Field(q, "header") == S("1") <==> Client.Sends(p.xfer, Header);
    assert Field(q, "cookie") == S("1") <==> Client.Sends(p.xfer, Cookie);
    assert Field(q, "body") == S("1") <==> Client.Sends(p.xfer, Body);
    VerdictsIgnoreUnselected(Direction.Download, p, Field(resp.header, SpechtHeader) == canary,
                             Field(resp.header, SetCookieHeader) == CookiePrefix + canary, resp.body == canary);
  }

  /** A list of canaries the server can tell apart: no two alike and none empty, so an
      absent channel ("") matches none of them. */
  predicate Distinguishable(canaries: seq<Str>) {
    && (forall i, j :: 0 <= i < j < |canaries| ==> canaries[i] != canaries[j])
    && (forall i :: 0 <= i < |canaries| ==> canaries[i] != [])
  }

  /** Among distinct canaries, the last match of canary i is i itself. */
  lemma LastMatchOwnIndex(canaries: seq<Str>, i: nat)
    requires forall a, b :: 0 <= a < b < |canaries| ==> canaries[a] != canaries[b]
    requires i < |canaries|
    ensures Server.LastMatch(canaries, canaries[i]) == i
  {
    assert canaries[i] in canaries;
  }

  /** What patternPost observes in an upload probe: the probe's canary index in every
      channel it selects and -1 in every other one. */
  lemma UploadIsObserved(canaries: seq<Str>, id: ClientId, p: Client.Probe)
    requires Distinguishable(canaries) && p.index < |canaries|
    ensures var req := Client.Identified(id, Client.UploadRequest(canaries[p.index], p.xfer));
            Server.Observe(canaries, req) ==
            ProbeResult(if Client.Sends(p.xfer, Header) then p.index else -1,
                        if Client.Sends(p.xfer, Cookie) then p.index else -1,
                        if Client.Sends(p.xfer, Body) then p.index else -1)
  {
    var canary := canaries[p.index];
    var up := Client.UploadRequest(canary, p.xfer);
    var req := Client.Identified(id, up);
    Client.IdentifiedFields(id, up);
    Client.UploadRequestChannels(canary, p.xfer);
    LastMatchOwnIndex(canaries, p.index);
    assert [] !in canaries;
    var cookie := Field(req.header, CookieHeader);
    if Client.Sends(p.xfer, Cookie) {
      assert cookie == CookiePrefix + canary;
      assert cookie[..|CookiePrefix|] == CookiePrefix;
      assert Server.CookieValue(cookie) == canary;
    } else {
      assert cookie == [];
      assert Server.CookieValue(cookie) == [];
    }
  }

  /** An upload probe answered by patternPost to a registered client: the client decrypts
      and decodes exactly what the server observed, and every verdict line says found. */
  lemma UploadFindsEveryChannel(s: Server.Server, id: ClientId, clientCtx: Context, p: Client.Probe, n: Nonce)
    requires Inverts(s.box) && KeyPair(s.box, s.ctx) && KeyPair(s.box, clientCtx) && Faithful(s.json)
    requires id in s.pubKeys && s.pubKeys[id] == clientCtx.pubKey
    requires Distinguishable(s.config.magicStrings) && p.index < |s.config.magicStrings|
    ensures var req := Client.Identified(id, Client.UploadRequest(s.config.magicStrings[p.index], p.xfer));
            var result := Client.UploadResult(s.box, clientCtx, s.json, s.ctx.pubKey,
                                              Client.Classify(Deliver(s.PatternPostResponse(req, Some(n)))));
            && result == Success(Server.Observe(s.config.magicStrings, req))
            && Client.UploadOutcome(p, result) == Client.Verdicts(Direction.Upload, p, true, true, true)
  {
    var canaries := s.config.magicStrings;
    var req := Client.Identified(id, Client.UploadRequest(canaries[p.index], p.xfer));
    IdentifiedIsRecognised(id, Client.UploadRequest(canaries[p.index], p.xfer));
    UploadIsObserved(canaries, id, p);
    var obs := Server.Observe(canaries, req);
    assert s.Peer(req) == Success((id, clientCtx.pubKey));
    RoundTrip(s.box, clientCtx, s.ctx, n, s.json.result(obs));
    var buf := Encrypt(s.box, s.ctx, clientCtx.pubKey, Some(n), s.json.result(obs)).value;
    assert s.PatternPostResponse(req, Some(n)) == OK(map[], buf);
    assert s.json.parseResult(s.json.result(obs), NoMatch) == Some(obs);
    VerdictsIgnoreUnselected(Direction.Upload, p, obs.header == p.index, obs.cookie == p.index, obs.body == p.index);
  }

  /** The config handler's answer to a registered client decrypts and decodes, whatever the
      client held before, to exactly the configuration the server serves. */
  lemma ConfigReachesClient(s: Server.Server, id: ClientId, clientCtx: Context, into: Config, n: Nonce)
    requires Inverts(s.box) && KeyPair(s.box, s.ctx) && KeyPair(s.box, clientCtx) && Faithful(s.json)
    requires id in s.pubKeys && s.pubKeys[id] == clientCtx.pubKey
    ensures var resp := s.ServeConfig(Client.Identified(id, Client.ConfigRequest()), Some(n));
            Client.ConfigFrom(s.box, clientCtx, s.json, s.ctx.pubKey, into, Client.Classify(Deliver(resp))) ==
            Success(s.config)
  {
    var req := Client.Identified(id, Client.ConfigRequest());
    IdentifiedIsRecognised(id, Client.ConfigRequest());
    assert s.Peer(req) == Success((id, clientCtx.pubKey));
    RoundTrip(s.box, clientCtx, s.ctx, n, s.json.config(s.config));
    var buf := Encrypt(s.box, s.ctx, clientCtx.pubKey, Some(n), s.json.config(s.config)).value;
    assert s.ServeConfig(req, Some(n)) == OK(map[], buf);
    assert s.json.parseConfig(s.json.config(s.config), into) == Some(s.config);
  }

  /** A client whose key the server never registered is refused the configuration with
      400, which the client reports as a bad status. */
  lemma UnregisteredClientRefused(s: Server.Server, id: ClientId, clientCtx: Context, into: Config, nonce: Option<Nonce>)
    requires id !in s.pubKeys
    ensures s.ServeConfig(Client.Identified(id, Client.ConfigRequest()), nonce) == BadRequest
    ensures Client.ConfigFrom(s.box, clientCtx, s.json, s.ctx.pubKey, into,
                              Client.Classify(Deliver(BadRequest))) == Failure(BadStatus(400))
  {
    IdentifiedIsRecognised(id, Client.ConfigRequest());
  }

  /** The key exchange against the kex handler: the server registers the client's public
      key under its identity and the client receives the server's public key. */
  method KeyExchange(s: Server.Server, id: ClientId, clientCtx: Context) returns (key: Result<Key, Fault>)
    modifies s`pubKeys
    ensures key == Success(s.ctx.pubKey)
    ensures s.pubKeys == old(s.pubKeys)[id := clientCtx.pubKey]
  {
    var req := Client.Identified(id, Client.KexRequest(clientCtx.pubKey));
    IdentifiedIsRecognised(id, Client.KexRequest(clientCtx.pubKey));
    var resp := s.Kex(req);
    key := Client.KexKey(Client.Classify(Deliver(resp)));
  }

  /** The report reaches the log handler intact: the batch it accepts is the reporting
      identity and exactly the entries the client shipped. */
  lemma ReportReachesServer(s: Server.Server, id: ClientId, clientCtx: Context, es: seq<LogEntry>, n: Nonce)
    requires Inverts(s.box) && KeyPair(s.box, s.ctx) && KeyPair(s.box, clientCtx) && Faithful(s.json)
    requires id in s.pubKeys && s.pubKeys[id] == clientCtx.pubKey
    ensures var ct := Encrypt(s.box, clientCtx, s.ctx.pubKey, Some(n), s.json.entries(es));
            && ct.Success?
            && s.LogBatch(Client.Identified(id, Client.LogRequest(ct.value))) == Success((id, es))
  {
    RoundTrip(s.box, s.ctx, clientCtx, n, s.json.entries(es));
    var ct := Encrypt(s.box, clientCtx, s.ctx.pubKey, Some(n), s.json.entries(es)).value;
    var req := Client.Identified(id, Client.LogRequest(ct));
    IdentifiedIsRecognised(id, Client.LogRequest(ct));
    Client.IdentifiedFields(id, Client.LogRequest(ct));
    assert s.Peer(req) == Success((id, clientCtx.pubKey));
    assert req.body == Some(ct);
    assert s.json.parseEntries(s.json.entries(es)) == Some(es);
  }
}
