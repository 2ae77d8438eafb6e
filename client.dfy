/** client/client.go: the key exchange and configuration fetch of New, the probe matrix
    of download and upload, and the report of the accumulated log. The network and the
    server behind it are the client's `transport` oracle. */
module Client {
  import opened Bytes
  import opened ClientIds
  import opened Crypto
  import opened Messages
  import opened Http
  import opened Decimal

  /** xfertype: a 3-bit channel mask; XferMax is the first value above every mask. */
  const XferHeader: nat := 1
  const XferCookie: nat := 2
  const XferBody: nat := 4
  const XferMax: nat := 8

  function Rank(c: Channel): nat {
    match c
    case Header => 0
    case Cookie => 1
    case Body => 2
  }

  /** `t & flag != 0` for the flag of channel c. */
  predicate Sends(t: nat, c: Channel) {
    match c
    case Header => t % 2 == 1
    case Cookie => (t / 2) % 2 == 1
    case Body => (t / 4) % 2 == 1
  }

  /** The channels a mask selects, in header, cookie, body order. */
  function Channels(t: nat): (cs: seq<Channel>)
    ensures forall c :: c in cs <==> Sends(t, c)
    ensures forall i, j :: 0 <= i < j < |cs| ==> Rank(cs[i]) < Rank(cs[j])
  {
    (if Sends(t, Header) then [Header] else []) +
    (if Sends(t, Cookie) then [Cookie] else []) +
    (if Sends(t, Body) then [Body] else [])
  }

  /** Every value below XferMax is the sum of the flags of the channels it selects, so the
      seven masks 1..7 are the seven non-empty sets of channels; XferMax selects none. */
  lemma MasksAreChannelSets(t: nat)
    requires t < XferMax
    ensures t == (if Sends(t, Header) then XferHeader else 0) +
                 (if Sends(t, Cookie) then XferCookie else 0) +
                 (if Sends(t, Body) then XferBody else 0)
    ensures t != 0 ==> Channels(t) != []
    ensures Channels(XferMax) == []
  {
  }

  /** The word each channel adds to the mask's text. */
  function Name(c: Channel): (s: Str)
    ensures |s| > 0
  {
    match c
    case Header => S("header ")
    case Cookie => S("cookie ")
    case Body => S("body ")
  }

  function Names(cs: seq<Channel>): Str
    decreases |cs|
  {
    if cs == [] then [] else Name(cs[0]) + Names(cs[1..])
  }

  lemma {:induction false} NamesAppend(a: seq<Channel>, b: seq<Channel>)
    ensures Names(a + b) == Names(a) + Names(b)
    decreases |a|
  {
    if a == [] {
      assert a + b == b;
    } else {
      assert (a + b)[0] == a[0] && (a + b)[1..] == a[1..] + b;
      NamesAppend(a[1..], b);
      assert Names(a + b) == Name(a[0]) + Names(a[1..] + b);
      assert Names(a) == Name(a[0]) + Names(a[1..]);
      AppendAssoc(Name(a[0]), Names(a[1..]), Names(b));
    }
  }

  /** xfertype.String */
  function XferString(t: nat): Str {
    var s := S("xfer< ");
    var s := if Sends(t, Header) then s + S("header ") else s;
    var s := if Sends(t, Cookie) then s + S("cookie ") else s;
    var s := if Sends(t, Body) then s + S("body ") else s;
    s + S(">")
  }

  /** The mask's text lists the names of exactly the channels it selects, in order. */
  lemma XferStringListsChannels(t: nat)
    ensures XferString(t) == S("xfer< ") + Names(Channels(t)) + S(">")
  {
    var hs: seq<Channel> := if Sends(t, Header) then [Header] else [];
    var cs: seq<Channel> := if Sends(t, Cookie) then [Cookie] else [];
    var bs: seq<Channel> := if Sends(t, Body) then [Body] else [];
    NamesAppend(hs, cs);
    NamesAppend(hs + cs, bs);
    var nh, nc, nb := Names(hs), Names(cs), Names(bs);
    assert nh == if Sends(t, Header) then S("header ") else [] by {
      if Sends(t, Header) { assert hs[1..] == []; }
    }
    assert nc == if Sends(t, Cookie) then S("cookie ") else [] by {
      if Sends(t, Cookie) { assert cs[1..] == []; }
    }
    assert nb == if Sends(t, Body) then S("body ") else [] by {
      if Sends(t, Body) { assert bs[1..] == []; }
    }
    var p := S("xfer< ");
    var s1 := if Sends(t, Header) then p + S("header ") else p;
    var s2 := if Sends(t, Cookie) then s1 + S("cookie ") else s1;
    var s3 := if Sends(t, Body) then s2 + S("body ") else s2;
    assert s1 == p + nh;
    assert s2 == s1 + nc;
    assert s3 == s2 + nb;
    assert XferString(t) == s3 + S(">");
    AppendAssoc(p, nh, nc);
    AppendAssoc(p, nh + nc, nb);
  }

  lemma NameFirstByte(c: Channel)
    ensures Name(c)[0] == match c case Header => 104 case Cookie => 99 case Body => 98
  {
  }

  /** No two channel lists have the same text. */
  lemma {:induction false} NamesInjective(a: seq<Channel>, b: seq<Channel>)
    requires Names(a) == Names(b)
    ensures a == b
    decreases |a|
  {
    if a != [] {
      assert |Names(a)| >= |Name(a[0])| > 0;
      assert b != [];
      assert Names(a)[0] == Name(a[0])[0] && Names(b)[0] == Name(b[0])[0];
      NameFirstByte(a[0]);
      NameFirstByte(b[0]);
      assert a[0] == b[0];
      var k := |Name(a[0])|;
      assert Names(a)[k..] == Names(a[1..]);
      assert Names(b)[k..] == Names(b[1..]);
      NamesInjective(a[1..], b[1..]);
      assert a == [a[0]] + a[1..] && b == [b[0]] + b[1..];
    }
  }

  /** The text of a mask tells which channels a probe used: distinct masks below XferMax
      never print alike. */
  lemma XferStringIdentifiesMask(t1: nat, t2: nat)
    requires t1 < XferMax && t2 < XferMax
    requires XferString(t1) == XferString(t2)
    ensures t1 == t2
  {
    var p, q := S("xfer< "), S(">");
    var n1, n2 := Names(Channels(t1)), Names(Channels(t2));
    XferStringListsChannels(t1);
    XferStringListsChannels(t2);
    CancelAround(p, n1, n2, q);
    NamesInjective(Channels(t1), Channels(t2));
    assert forall c :: Sends(t1, c) <==> Sends(t2, c);
    MasksAreChannelSets(t1);
    MasksAreChannelSets(t2);
  }

  /** One probe of the matrix: a canary index and a mask. */
  datatype Probe = Probe(index: nat, xfer: nat)

  /** Probe p comes before probe q: lower canary index first, then lower mask. */
  predicate Before(p: Probe, q: Probe) {
    p.index < q.index || (p.index == q.index && p.xfer < q.xfer)
  }

  /** The inner loop for one canary: masks 1..width. */
  function Row(index: nat, width: nat): (ps: seq<Probe>)
    ensures |ps| == width
  {
    seq(width, j requires 0 <= j < width => Probe(index, j + 1))
  }

  /** The nested loops: every canary index below n in ascending order, and for each the
      masks 1..width in ascending order. */
  function Probes(n: nat, width: nat): (ps: seq<Probe>)
    ensures forall k :: 0 <= k < |ps| ==> ps[k].index < n && 1 <= ps[k].xfer <= width
    decreases n
  {
    if n == 0 then [] else Probes(n - 1, width) + Row(n - 1, width)
  }

  /** The probes come in strictly ascending (index, mask) order, so none repeats. */
  lemma {:induction false} ProbesOrdered(n: nat, width: nat)
    ensures forall i, j :: 0 <= i < j < |Probes(n, width)| ==> Before(Probes(n, width)[i], Probes(n, width)[j])
    decreases n
  {
    if n > 0 {
      ProbesOrdered(n - 1, width);
      var init, row := Probes(n - 1, width), Row(n - 1, width);
      var ps := init + row;
      forall i, j | 0 <= i < j < |ps|
        ensures Before(ps[i], ps[j])
      {
        if j < |init| {
          assert ps[i] == init[i] && ps[j] == init[j];
          assert Before(init[i], init[j]);
        } else if i < |init| {
          assert ps[i] == init[i] && ps[j] == row[j - |init|];
          assert init[i].index < n - 1 && row[j - |init|].index == n - 1;
        } else {
          assert ps[i] == row[i - |init|] && ps[j] == row[j - |init|];
          assert ps[i] == Probe(n - 1, i - |init| + 1) && ps[j] == Probe(n - 1, j - |init| + 1);
        }
      }
    }
  }

  /** Every pair of a canary index below n and a mask in 1..width is probed. */
  lemma {:induction false} ProbesComplete(n: nat, width: nat, i: nat, m: nat)
    requires i < n && 1 <= m <= width
    ensures Probe(i, m) in Probes(n, width)
    decreases n
  {
    var init, row := Probes(n - 1, width), Row(n - 1, width);
    if i == n - 1 {
      assert row[m - 1] == Probe(i, m);
      assert (init + row)[|init| + m - 1] == Probe(i, m);
    } else {
      ProbesComplete(n - 1, width, i, m);
      var k :| 0 <= k < |init| && init[k] == Probe(i, m);
      assert (init + row)[k] == Probe(i, m);
    }
  }

  /** The query of a download probe: the canary index, and "1" for each selected channel. */
  function DownloadQuery(index: nat, t: nat): Fields {
    map["id" := Itoa(index)] +
    (if Sends(t, Header) then map["header" := S("1")] else map[]) +
    (if Sends(t, Cookie) then map["cookie" := S("1")] else map[]) +
    (if Sends(t, Body) then map["body" := S("1")] else map[])
  }

  /** The query names the canary by its decimal index and asks with "1" for exactly the
      channels the mask selects. */
  lemma DownloadQueryFields(index: nat, t: nat)
    ensures var q := DownloadQuery(index, t);
            && "id" in q && q["id"] == Itoa(index)
            && ("header" in q <==> Sends(t, Header))
            && ("cookie" in q <==> Sends(t, Cookie))
            && ("body" in q <==> Sends(t, Body))
            && q.Keys <= {"id", "header", "cookie", "body"}
            && forall k :: k in q && k != "id" ==> q[k] == S("1")
  {
  }

  /** The GET request of download probe (index, t). */
  function DownloadRequest(p: Probe): Request {
    Request(Get, DataPath, map[], DownloadQuery(p.index, p.xfer), Some([]))
  }

  /** The POST request of upload probe (index, t): the canary in the X-Specht header, in a
      "Specht=" cookie and as the body, exactly for the selected channels. */
  function UploadRequest(canary: Str, t: nat): Request {
    var h: Fields := if Sends(t, Header) then map[SpechtHeader := canary] else map[];
    var c: Fields := if Sends(t, Cookie) then map[CookieHeader := CookiePrefix + canary] else map[];
    Request(Post, DataPath, h + c, map[], Some(if Sends(t, Body) then canary else []))
  }

  /** The upload request carries the canary in exactly the channels the mask selects, and
      nothing else. */
  lemma UploadRequestChannels(canary: Str, t: nat)
    ensures var r := UploadRequest(canary, t);
            && r.verb == Post && r.path == DataPath && r.query == map[]
            && r.header.Keys <= {SpechtHeader, CookieHeader}
            && (SpechtHeader in r.header <==> Sends(t, Header))
            && (SpechtHeader in r.header ==> r.header[SpechtHeader] == canary)
            && (CookieHeader in r.header <==> Sends(t, Cookie))
            && (CookieHeader in r.header ==> r.header[CookieHeader] == CookiePrefix + canary)
            && r.body == Some(if Sends(t, Body) then canary else [])
  {
  }

  function KexRequest(pubKey: Key): Request {
    Request(Post, KexPath, map[], map[], Some(pubKey))
  }

  function ConfigRequest(): Request {
    Request(Get, ConfigPath, map[], map[], Some([]))
  }

  function LogRequest(ciphertext: Str): Request {
    Request(Post, LogPath, map[], map[], Some(ciphertext))
  }

  /** What do sends: the request with the client's identity in X-Specht-Id. */
  function Identified(id: ClientId, req: Request): Request {
    req.(header := req.header[IdHeader := Format(id)])
  }

  /** do sets X-Specht-Id to the identity's text and leaves the rest of the request alone. */
  lemma IdentifiedFields(id: ClientId, req: Request)
    ensures var r := Identified(id, req);
            && Field(r.header, IdHeader) == Format(id)
            && r.verb == req.verb && r.path == req.path && r.query == req.query && r.body == req.body
            && forall k :: k != IdHeader ==> Field(r.header, k) == Field(req.header, k)
  {
  }

  /** do's verdict on an exchange: only a delivered reply with status 200 is a success. */
  function Classify(e: Exchange): (r: Result<Reply, Fault>)
    ensures r.Success? <==> e.Delivered? && e.reply.status == 200
    ensures r.Success? ==> r.value == e.reply
    ensures e.TransportFailed? ==> r == Failure(TransportError)
    ensures e.Delivered? && e.reply.status != 200 ==> r == Failure(BadStatus(e.reply.status))
  {
    match e
    case TransportFailed => Failure(TransportError)
    case Delivered(reply) => if reply.status != 200 then Failure(BadStatus(reply.status)) else Success(reply)
  }

  /** The key the exchange yields: the reply body, which must be exactly 32 bytes. */
  function KexKey(res: Result<Reply, Fault>): (k: Result<Key, Fault>)
    ensures k.Success? <==> res.Success? && |res.value.body| == KeySize
    ensures k.Success? ==> k.value == res.value.body
    ensures res.Failure? ==> k == Failure(res.error)
    ensures res.Success? && |res.value.body| != KeySize ==> k == Failure(WrongKeyLength(|res.value.body|))
  {
    match res
    case Failure(f) => Failure(f)
    case Success(reply) =>
      if |reply.body| != KeySize then Failure(WrongKeyLength(|reply.body|)) else Success(reply.body)
  }

  /** The configuration a config reply yields, decrypted with the server's key and decoded
      into `into`. */
  function ConfigFrom(box: Box, ctx: Context, json: Json, serverKey: Key, into: Config, res: Result<Reply, Fault>): Result<Config, Fault> {
    match res
    case Failure(f) => Failure(f)
    case Success(reply) =>
      if reply.readFailed then Failure(ReadError)
      else
        match Decrypt(box, ctx, serverKey, reply.body)
        case Failure(e) => Failure(CryptoFault(e))
        case Success(buf) =>
          match json.parseConfig(buf, into)
          case None => Failure(JsonError)
          case Some(c) => Success(c)
  }

  function Pick(c: Channel, header: bool, cookie: bool, body: bool): bool {
    match c
    case Header => header
    case Cookie => cookie
    case Body => body
  }

  /** The verdict lines of one answered probe: one per selected channel, in header, cookie,
      body order, each saying whether the canary survived in that channel. */
  function Verdicts(dir: Direction, p: Probe, header: bool, cookie: bool, body: bool): seq<Message> {
    (if Sends(p.xfer, Header) then [Verdict(dir, p.xfer, p.index, Header, header)] else []) +
    (if Sends(p.xfer, Cookie) then [Verdict(dir, p.xfer, p.index, Cookie, cookie)] else []) +
    (if Sends(p.xfer, Body) then [Verdict(dir, p.xfer, p.index, Body, body)] else [])
  }

  /** One verdict per selected channel, in channel order, each carrying that channel's flag. */
  lemma VerdictsPerChannel(dir: Direction, p: Probe, header: bool, cookie: bool, body: bool)
    ensures var ms, cs := Verdicts(dir, p, header, cookie, body), Channels(p.xfer);
            && |ms| == |cs|
            && forall k :: 0 <= k < |ms| ==> ms[k] == Verdict(dir, p.xfer, p.index, cs[k], Pick(cs[k], header, cookie, body))
  {
  }

  /** The lines one download probe logs. */
  function DownloadOutcome(canary: Str, p: Probe, res: Result<Reply, Fault>): seq<Message> {
    match res
    case Failure(f) => [ProbeFailed(Download, p.xfer, p.index, f)]
    case Success(reply) =>
      Verdicts(Download, p,
               Field(reply.header, SpechtHeader) == canary,
               Field(reply.header, SetCookieHeader) == CookiePrefix + canary,
               reply.body == canary)
  }

  /** The ProbeResult an upload reply yields, or why it yields none. */
  function UploadResult(box: Box, ctx: Context, json: Json, serverKey: Key, res: Result<Reply, Fault>): Result<ProbeResult, Fault> {
    match res
    case Failure(f) => Failure(f)
    case Success(reply) =>
      if reply.readFailed then Failure(ReadError)
      else
        match Decrypt(box, ctx, serverKey, reply.body)
        case Failure(e) => Failure(CryptoFault(e))
        case Success(buf) =>
          match json.parseResult(buf, NoMatch)
          case None => Failure(JsonError)
          case Some(r) => Success(r)
  }

  /** Both encrypted replies decode alike: a failed exchange keeps do's fault, an unreadable
      body is a read error, a body that does not decrypt under the server's key is a crypto
      fault, and what decrypts is the decoded JSON, or a JSON error. */
  lemma DecodingFaults(box: Box, ctx: Context, json: Json, serverKey: Key, into: Config, res: Result<Reply, Fault>)
    ensures var cfg, up := ConfigFrom(box, ctx, json, serverKey, into, res), UploadResult(box, ctx, json, serverKey, res);
            && (res.Failure? ==> cfg == Failure(res.error) && up == Failure(res.error))
            && (res.Success? && res.value.readFailed ==> cfg == Failure(ReadError) && up == Failure(ReadError))
            && (res.Success? && !res.value.readFailed ==>
                  var plain := Decrypt(box, ctx, serverKey, res.value.body);
                  && (plain.Failure? ==> cfg == Failure(CryptoFault(plain.error)) && up == Failure(CryptoFault(plain.error)))
                  && (plain.Success? ==>
                        && (cfg.Success? <==> json.parseConfig(plain.value, into).Some?)
                        && (cfg.Success? ==> cfg.value == json.parseConfig(plain.value, into).value)
                        && (cfg.Failure? ==> cfg.error == JsonError)
                        && (up.Success? <==> json.parseResult(plain.value, NoMatch).Some?)
                        && (up.Success? ==> up.value == json.parseResult(plain.value, NoMatch).value)
                        && (up.Failure? ==> up.error == JsonError)))
  {
  }

  /** The lines one upload probe logs. */
  function UploadOutcome(p: Probe, result: Result<ProbeResult, Fault>): seq<Message> {
    match result
    case Failure(f) => [ProbeFailed(Upload, p.xfer, p.index, f)]
    case Success(r) => Verdicts(Upload, p, r.header == p.index, r.cookie == p.index, r.body == p.index)
  }

  /** A successful download probe logs one verdict per selected channel; found means the
      header equals the canary, the Set-Cookie value equals "Specht=" and the canary, the
      body equals the canary, all exactly. A failed one logs one failure line. */
  lemma DownloadVerdicts(canary: Str, p: Probe, res: Result<Reply, Fault>)
    ensures res.Failure? ==> DownloadOutcome(canary, p, res) == [ProbeFailed(Download, p.xfer, p.index, res.error)]
    ensures res.Success? ==>
              var ms, rep := DownloadOutcome(canary, p, res), res.value;
              && |ms| == |Channels(p.xfer)|
              && forall k :: 0 <= k < |ms| ==>
                   && ms[k].Verdict? && ms[k].dir == Download && ms[k].xfer == p.xfer && ms[k].index == p.index
                   && Sends(p.xfer, ms[k].channel)
                   && (ms[k].channel == Header ==> (ms[k].found <==> Field(rep.header, SpechtHeader) == canary))
                   && (ms[k].channel == Cookie ==> (ms[k].found <==> Field(rep.header, SetCookieHeader) == CookiePrefix + canary))
                   && (ms[k].channel == Body ==> (ms[k].found <==> rep.body == canary))
  {
    if res.Success? {
      var rep := res.value;
      VerdictsPerChannel(Download, p, Field(rep.header, SpechtHeader) == canary,
                         Field(rep.header, SetCookieHeader) == CookiePrefix + canary, rep.body == canary);
      var ms := DownloadOutcome(canary, p, res);
      forall k | 0 <= k < |ms|
        ensures Sends(p.xfer, ms[k].channel)
      {
        assert ms[k].channel == Channels(p.xfer)[k];
      }
    }
  }

  /** A requested channel of an upload probe is found exactly when the decrypted result
      reports this probe's canary index for it; unrequested channels are not judged. */
  lemma UploadVerdicts(p: Probe, result: Result<ProbeResult, Fault>)
    ensures result.Failure? ==> UploadOutcome(p, result) == [ProbeFailed(Upload, p.xfer, p.index, result.error)]
    ensures result.Success? ==>
              var ms, r := UploadOutcome(p, result), result.value;
              && |ms| == |Channels(p.xfer)|
              && forall k :: 0 <= k < |ms| ==>
                   && ms[k].Verdict? && ms[k].dir == Upload && Sends(p.xfer, ms[k].channel)
                   && (ms[k].channel == Header ==> (ms[k].found <==> r.header == p.index))
                   && (ms[k].channel == Cookie ==> (ms[k].found <==> r.cookie == p.index))
                   && (ms[k].channel == Body ==> (ms[k].found <==> r.body == p.index))
  {
    if result.Success? {
      var r := result.value;
      VerdictsPerChannel(Upload, p, r.header == p.index, r.cookie == p.index, r.body == p.index);
      var ms := UploadOutcome(p, result);
      forall k | 0 <= k < |ms|
        ensures Sends(p.xfer, ms[k].channel)
      {
        assert ms[k].channel == Channels(p.xfer)[k];
      }
    }
  }

  /** The extra upload probe at mask XferMax sends no canary and judges no channel: it logs
      nothing, or one failure line. */
  lemma UploadAtXferMax(canary: Str, index: nat, result: Result<ProbeResult, Fault>)
    ensures UploadRequest(canary, XferMax).header == map[]
    ensures UploadRequest(canary, XferMax).body == Some([])
    ensures result.Success? ==> UploadOutcome(Probe(index, XferMax), result) == []
    ensures result.Failure? ==> |UploadOutcome(Probe(index, XferMax), result)| == 1
  {
    MasksAreChannelSets(0);
  }

  /** The log entries for messages ms, the first taking clock reading `start`. */
  function Stamp(clock: nat -> Timestamp, start: nat, ms: seq<Message>): (es: seq<LogEntry>)
    ensures |es| == |ms|
  {
    seq(|ms|, k requires 0 <= k < |ms| => LogEntry(clock(start + k), ms[k]))
  }

  lemma StampSnoc(clock: nat -> Timestamp, start: nat, ms: seq<Message>, m: Message)
    ensures Stamp(clock, start, ms) + [LogEntry(clock(start + |ms|), m)] == Stamp(clock, start, ms + [m])
  {
    var a, b := Stamp(clock, start, ms) + [LogEntry(clock(start + |ms|), m)], Stamp(clock, start, ms + [m]);
    forall k | 0 <= k < |b|
      ensures a[k] == b[k]
    {
      if k < |ms| {
        assert a[k] == Stamp(clock, start, ms)[k];
      }
    }
  }

  lemma StampAppend(clock: nat -> Timestamp, start: nat, a: seq<Message>, b: seq<Message>)
    ensures Stamp(clock, start, a) + Stamp(clock, start + |a|, b) == Stamp(clock, start, a + b)
  {
    var l, r := Stamp(clock, start, a) + Stamp(clock, start + |a|, b), Stamp(clock, start, a + b);
    forall k | 0 <= k < |r|
      ensures l[k] == r[k]
    {
      if k < |a| {
        assert l[k] == Stamp(clock, start, a)[k];
      } else {
        assert l[k] == Stamp(clock, start + |a|, b)[k - |a|];
      }
    }
  }

  /** Logging `outcome` onto a log that already holds e0 and the entries of `before`. */
  lemma StampExtend(clock: nat -> Timestamp, e0: seq<LogEntry>, before: seq<Message>, log: seq<LogEntry>, outcome: seq<Message>)
    requires log == e0 + Stamp(clock, |e0|, before)
    ensures log + Stamp(clock, |log|, outcome) == e0 + Stamp(clock, |e0|, before + outcome)
  {
    StampAppend(clock, |e0|, before, outcome);
    AppendAssoc(e0, Stamp(clock, |e0|, before), Stamp(clock, |e0| + |before|, outcome));
  }

  /** Logging one more message onto a log that already holds e0 and the entries of `before`. */
  lemma StampLast(clock: nat -> Timestamp, e0: seq<LogEntry>, before: seq<Message>, log: seq<LogEntry>, m: Message)
    requires log == e0 + Stamp(clock, |e0|, before)
    ensures log + [LogEntry(clock(|log|), m)] == e0 + Stamp(clock, |e0|, before + [m])
  {
    StampSnoc(clock, |e0|, before, m);
    AppendAssoc(e0, Stamp(clock, |e0|, before), [LogEntry(clock(|e0| + |before|), m)]);
  }

  class Client {
    const id: ClientId
    const ctx: Context
    const box: Box
    const json: Json
    const baseUrl: Str
    /** The network and the server behind it: the exchange a request gets, given every
        request sent before it. */
    const transport: (seq<Request>, Request) -> Exchange
    /** time.Now, as read for the k-th log entry. */
    const clock: nat -> Timestamp
    var config: Config
    var serverPubKey: Key
    var logentries: seq<LogEntry>
    /** The requests placed on the network so far, in order. */
    var sent: seq<Request>

    /** New, up to its key exchange: the identity and key pair come from rand.Reader. */
    constructor (id: ClientId, ctx: Context, box: Box, json: Json, baseUrl: Str,
                 transport: (seq<Request>, Request) -> Exchange, clock: nat -> Timestamp)
      ensures this.id == id && this.ctx == ctx && this.box == box && this.json == json
      ensures this.baseUrl == baseUrl && this.transport == transport && this.clock == clock
      ensures config == Config([], [], []) && logentries == [] && sent == []
    {
      this.id, this.ctx, this.box, this.json := id, ctx, box, json;
      this.baseUrl, this.transport, this.clock := baseUrl, transport, clock;
      config := Config([], [], []);
      serverPubKey := seq(KeySize, _ => 0 as byte);
      logentries := [];
      sent := [];
    }

    /** log and logf: append exactly one entry. */
    method Log(m: Message)
      modifies this`logentries
      ensures logentries == old(logentries) + [LogEntry(clock(|old(logentries)|), m)]
    {
      logentries := logentries + [LogEntry(clock(|logentries|), m)];
    }

    /** do: sends the request with the client's identity and turns any status but 200
        into an error. */
    method Do(req: Request) returns (res: Result<Reply, Fault>)
      modifies this`sent
      ensures sent == old(sent) + [Identified(id, req)]
      ensures res == Classify(transport(old(sent), Identified(id, req)))
    {
      var exchange := transport(sent, Identified(id, req));
      sent := sent + [Identified(id, req)];
      res := Classify(exchange);
    }

    /** The requests of the download loops over probes ps. */
    function DownloadRequests(ps: seq<Probe>): (rs: seq<Request>)
      ensures |rs| == |ps|
    {
      seq(|ps|, k requires 0 <= k < |ps| => Identified(id, DownloadRequest(ps[k])))
    }

    /** The requests of the upload loops over probes ps. */
    function UploadRequests(canaries: seq<Str>, ps: seq<Probe>): (rs: seq<Request>)
      requires forall k :: 0 <= k < |ps| ==> ps[k].index < |canaries|
      ensures |rs| == |ps|
    {
      seq(|ps|, k requires 0 <= k < |ps| => Identified(id, UploadRequest(canaries[ps[k].index], ps[k].xfer)))
    }

    /** The lines the download loops log over probes ps, after history h0. */
    function DownloadMessages(h0: seq<Request>, canaries: seq<Str>, ps: seq<Probe>): seq<Message>
      requires forall k :: 0 <= k < |ps| ==> ps[k].index < |canaries|
      decreases |ps|
    {
      if ps == [] then []
      else
        var init, p := ps[..|ps| - 1], ps[|ps| - 1];
        var req := Identified(id, DownloadRequest(p));
        DownloadMessages(h0, canaries, init) +
        DownloadOutcome(canaries[p.index], p, Classify(transport(h0 + DownloadRequests(init), req)))
    }

    /** The lines the upload loops log over probes ps, after history h0, decrypting with
        the server's key serverKey. */
    function UploadMessages(h0: seq<Request>, canaries: seq<Str>, serverKey: Key, ps: seq<Probe>): seq<Message>
      requires forall k :: 0 <= k < |ps| ==> ps[k].index < |canaries|
      decreases |ps|
    {
      if ps == [] then []
      else
        var init, p := ps[..|ps| - 1], ps[|ps| - 1];
        var req := Identified(id, UploadRequest(canaries[p.index], p.xfer));
        var res := Classify(transport(h0 + UploadRequests(canaries, init), req));
        UploadMessages(h0, canaries, serverKey, init) + UploadOutcome(p, UploadResult(box, ctx, json, serverKey, res))
    }

    /** One turn of download's inner loop extends the probes done so far by Probe(index, xfer). */
    lemma DownloadStep(h0: seq<Request>, canaries: seq<Str>, index: nat, xfer: nat)
      requires index < |canaries| && 1 <= xfer < XferMax
      ensures var done, p := Probes(index, XferMax - 1) + Row(index, xfer - 1), Probe(index, xfer);
              var req := Identified(id, DownloadRequest(p));
              && (forall k :: 0 <= k < |done| ==> done[k].index < |canaries|)
              && done + [p] == Probes(index, XferMax - 1) + Row(index, xfer)
              && h0 + DownloadRequests(done) + [req] == h0 + DownloadRequests(done + [p])
              && [TryingDownloads] + DownloadMessages(h0, canaries, done) +
                 DownloadOutcome(canaries[index], p, Classify(transport(h0 + DownloadRequests(done), req))) ==
                 [TryingDownloads] + DownloadMessages(h0, canaries, done + [p])
    {
      var done, p := Probes(index, XferMax - 1) + Row(index, xfer - 1), Probe(index, xfer);
      assert Row(index, xfer) == Row(index, xfer - 1) + [p];
      AppendAssoc(Probes(index, XferMax - 1), Row(index, xfer - 1), [p]);
      assert (done + [p])[..|done|] == done;
      var req := Identified(id, DownloadRequest(p));
      assert DownloadRequests(done + [p]) == DownloadRequests(done) + [req];
      AppendAssoc(h0, DownloadRequests(done), [req]);
      var outcome := DownloadOutcome(canaries[index], p, Classify(transport(h0 + DownloadRequests(done), req)));
      assert DownloadMessages(h0, canaries, done + [p]) == DownloadMessages(h0, canaries, done) + outcome;
      AppendAssoc([TryingDownloads], DownloadMessages(h0, canaries, done), outcome);
    }

    /** One turn of upload's inner loop extends the probes done so far by Probe(index, xfer). */
    lemma UploadStep(h0: seq<Request>, canaries: seq<Str>, serverKey: Key, index: nat, xfer: nat)
      requires index < |canaries| && 1 <= xfer <= XferMax
      ensures var done, p := Probes(index, XferMax) + Row(index, xfer - 1), Probe(index, xfer);
              var req := Identified(id, UploadRequest(canaries[index], xfer));
              && (forall k :: 0 <= k < |done| ==> done[k].index < |canaries|)
              && done + [p] == Probes(index, XferMax) + Row(index, xfer)
              && h0 + UploadRequests(canaries, done) + [req] == h0 + UploadRequests(canaries, done + [p])
              && [TryingUploads] + UploadMessages(h0, canaries, serverKey, done) +
                 UploadOutcome(p, UploadResult(box, ctx, json, serverKey,
                   Classify(transport(h0 + UploadRequests(canaries, done), req)))) ==
                 [TryingUploads] + UploadMessages(h0, canaries, serverKey, done + [p])
    {
      var done, p := Probes(index, XferMax) + Row(index, xfer - 1), Probe(index, xfer);
      assert Row(index, xfer) == Row(index, xfer - 1) + [p];
      AppendAssoc(Probes(index, XferMax), Row(index, xfer - 1), [p]);
      assert (done + [p])[..|done|] == done;
      var req := Identified(id, UploadRequest(canaries[index], xfer));
      assert UploadRequests(canaries, done + [p]) == UploadRequests(canaries, done) + [req];
      AppendAssoc(h0, UploadRequests(canaries, done), [req]);
      var outcome := UploadOutcome(p, UploadResult(box, ctx, json, serverKey,
                       Classify(transport(h0 + UploadRequests(canaries, done), req))));
      assert UploadMessages(h0, canaries, serverKey, done + [p]) == UploadMessages(h0, canaries, serverKey, done) + outcome;
      AppendAssoc([TryingUploads], UploadMessages(h0, canaries, serverKey, done), outcome);
    }

    /** The first turn of the inner loops starts from the probes of the earlier canaries,
        and the last one completes this canary's row. */
    lemma RowBounds(index: nat, width: nat)
      ensures Probes(index, width) + Row(index, 0) == Probes(index, width)
      ensures Probes(index, width) + Row(index, width) == Probes(index + 1, width)
    {
      assert Row(index, 0) == [];
    }

    /** The key exchange and configuration fetch of New. */
    method Handshake() returns (err: Option<Fault>)
      modifies this`logentries, this`sent, this`config, this`serverPubKey
      ensures var kexReq := Identified(id, KexRequest(ctx.pubKey));
              var key := KexKey(Classify(transport(old(sent), kexReq)));
              var intro := [ClientIdIs(Format(id)), PerformingKeyExchange];
              && (key.Failure? ==>
                    && err == Some(key.error)
                    && sent == old(sent) + [kexReq]
                    && logentries == old(logentries) + Stamp(clock, |old(logentries)|, intro)
                    && config == old(config) && serverPubKey == old(serverPubKey))
              && (key.Success? ==>
                    var cfgReq := Identified(id, ConfigRequest());
                    var cfg := ConfigFrom(box, ctx, json, key.value, old(config),
                                          Classify(transport(old(sent) + [kexReq], cfgReq)));
                    && serverPubKey == key.value
                    && sent == old(sent) + [kexReq, cfgReq]
                    && logentries == old(logentries) + Stamp(clock, |old(logentries)|, intro + [FetchingConfiguration(baseUrl)])
                    && (cfg.Failure? ==> err == Some(cfg.error) && config == old(config))
                    && (cfg.Success? ==> err == None && config == cfg.value))
    {
      ghost var e0 := logentries;
      Log(ClientIdIs(Format(id)));
      StampSnoc(clock, |e0|, [], ClientIdIs(Format(id)));
      Log(PerformingKeyExchange);
      StampSnoc(clock, |e0|, [ClientIdIs(Format(id))], PerformingKeyExchange);
      var r := Do(KexRequest(ctx.pubKey));
      if r.Failure? {
        return Some(r.error);
      }
      var buf := r.value.body;
      if |buf| != KeySize {
        return Some(WrongKeyLength(|buf|));
      }
      serverPubKey := buf;
      Log(FetchingConfiguration(baseUrl));
      StampSnoc(clock, |e0|, [ClientIdIs(Format(id)), PerformingKeyExchange], FetchingConfiguration(baseUrl));
      r := Do(ConfigRequest());
      if r.Failure? {
        return Some(r.error);
      }
      if r.value.readFailed {
        return Some(ReadError);
      }
      var plain := Decrypt(box, ctx, serverPubKey, r.value.body);
      if plain.Failure? {
        return Some(CryptoFault(plain.error));
      }
      var parsed := json.parseConfig(plain.value, config);
      if parsed.None? {
        return Some(JsonError);
      }
      config := parsed.value;
      err := None;
    }

    /** The verdict blocks of a probe: one line per selected channel, header, cookie, body. */
    method LogVerdicts(dir: Direction, p: Probe, header: bool, cookie: bool, body: bool)
      modifies this`logentries
      ensures logentries == old(logentries) + Stamp(clock, |old(logentries)|, Verdicts(dir, p, header, cookie, body))
    {
      ghost var e0 := logentries;
      ghost var hs: seq<Message> := if Sends(p.xfer, Header) then [Verdict(dir, p.xfer, p.index, Header, header)] else [];
      ghost var cs: seq<Message> := if Sends(p.xfer, Cookie) then [Verdict(dir, p.xfer, p.index, Cookie, cookie)] else [];
      ghost var bs: seq<Message> := if Sends(p.xfer, Body) then [Verdict(dir, p.xfer, p.index, Body, body)] else [];
      assert logentries == e0 + Stamp(clock, |e0|, []);
      if Sends(p.xfer, Header) {
        StampLast(clock, e0, [], logentries, hs[0]);
        Log(Verdict(dir, p.xfer, p.index, Header, header));
        assert [] + [hs[0]] == hs;
      }
      if Sends(p.xfer, Cookie) {
        StampLast(clock, e0, hs, logentries, cs[0]);
        Log(Verdict(dir, p.xfer, p.index, Cookie, cookie));
      }
      assert logentries == e0 + Stamp(clock, |e0|, hs + cs);
      if Sends(p.xfer, Body) {
        StampLast(clock, e0, hs + cs, logentries, bs[0]);
        Log(Verdict(dir, p.xfer, p.index, Body, body));
      }
    }

    /** One download probe: the body of download's inner loop. */
    method DownloadProbe(canary: Str, p: Probe)
      modifies this`logentries, this`sent
      ensures sent == old(sent) + [Identified(id, DownloadRequest(p))]
      ensures logentries == old(logentries) + Stamp(clock, |old(logentries)|,
                DownloadOutcome(canary, p, Classify(transport(old(sent), Identified(id, DownloadRequest(p))))))
    {
      ghost var e0 := logentries;
      var res := Do(DownloadRequest(p));
      if res.Failure? {
        Log(ProbeFailed(Direction.Download, p.xfer, p.index, res.error));
        StampSnoc(clock, |e0|, [], ProbeFailed(Direction.Download, p.xfer, p.index, res.error));
        return;
      }
      var reply := res.value;
      LogVerdicts(Direction.Download, p, Field(reply.header, SpechtHeader) == canary,
                  Field(reply.header, SetCookieHeader) == CookiePrefix + canary, reply.body == canary);
    }

    /** The state after the download probes `done`, starting from history s0 and log e0. */
    ghost predicate DownloadedUpTo(canaries: seq<Str>, s0: seq<Request>, e0: seq<LogEntry>, done: seq<Probe>)
      reads this
    {
      && (forall k :: 0 <= k < |done| ==> done[k].index < |canaries|)
      && sent == s0 + DownloadRequests(done)
      && logentries == e0 + Stamp(clock, |e0|, [TryingDownloads] + DownloadMessages(s0, canaries, done))
    }

    /** Before the first download probe only the opening line is logged. */
    lemma StartDownload(canaries: seq<Str>, s0: seq<Request>, e0: seq<LogEntry>)
      requires sent == s0 && logentries == e0 + [LogEntry(clock(|e0|), TryingDownloads)]
      ensures DownloadedUpTo(canaries, s0, e0, Probes(0, XferMax - 1))
    {
      StampSnoc(clock, |e0|, [], TryingDownloads);
      assert Probes(0, XferMax - 1) == [] && DownloadMessages(s0, canaries, []) == [];
      assert sent == s0 + DownloadRequests([]);
    }

    /** One turn of download's inner loop: the probe of mask `xfer` for canary `index`,
        given the state the earlier probes left. */
    method DownloadTurn(canaries: seq<Str>, index: nat, xfer: nat, ghost s0: seq<Request>, ghost e0: seq<LogEntry>)
      requires index < |canaries| && 1 <= xfer < XferMax
      requires DownloadedUpTo(canaries, s0, e0, Probes(index, XferMax - 1) + Row(index, xfer - 1))
      modifies this`logentries, this`sent
      ensures DownloadedUpTo(canaries, s0, e0, Probes(index, XferMax - 1) + Row(index, xfer))
    {
      ghost var done, p := Probes(index, XferMax - 1) + Row(index, xfer - 1), Probe(index, xfer);
      DownloadStep(s0, canaries, index, xfer);
      ghost var before := [TryingDownloads] + DownloadMessages(s0, canaries, done);
      ghost var outcome := DownloadOutcome(canaries[index], p, Classify(transport(sent, Identified(id, DownloadRequest(p)))));
      ghost var log := logentries;
      DownloadProbe(canaries[index], Probe(index, xfer));
      StampExtend(clock, e0, before, log, outcome);
    }

    /** download's inner loop for canary `index`: masks 1..7 in turn, given the state the
        earlier canaries left. */
    method DownloadCanary(canaries: seq<Str>, index: nat, ghost s0: seq<Request>, ghost e0: seq<LogEntry>)
      requires index < |canaries|
      requires DownloadedUpTo(canaries, s0, e0, Probes(index, XferMax - 1))
      modifies this`logentries, this`sent
      ensures DownloadedUpTo(canaries, s0, e0, Probes(index + 1, XferMax - 1))
    {
      RowBounds(index, XferMax - 1);
      for xfer := 1 to XferMax
        invariant DownloadedUpTo(canaries, s0, e0, Probes(index, XferMax - 1) + Row(index, xfer - 1))
      {
        DownloadTurn(canaries, index, xfer, s0, e0);
      }
    }

    /** download: for every canary index, ascending, and every mask 1..7, one GET whose
        selected channels are judged; a failed probe logs one line and the loops go on. */
    method Download()
      modifies this`logentries, this`sent
      ensures var ps := Probes(|config.magicStrings|, XferMax - 1);
              && sent == old(sent) + DownloadRequests(ps)
              && logentries == old(logentries) + Stamp(clock, |old(logentries)|,
                   [TryingDownloads] + DownloadMessages(old(sent), config.magicStrings, ps))
    {
      ghost var e0, s0 := logentries, sent;
      Log(TryingDownloads);
      var canaries := config.magicStrings;
      StartDownload(canaries, s0, e0);
      for index := 0 to |canaries|
        invariant DownloadedUpTo(canaries, s0, e0, Probes(index, XferMax - 1))
      {
        DownloadCanary(canaries, index, s0, e0);
      }
    }

    /** One upload probe: the body of upload's inner loop. */
    method UploadProbe(canary: Str, p: Probe)
      modifies this`logentries, this`sent
      ensures sent == old(sent) + [Identified(id, UploadRequest(canary, p.xfer))]
      ensures logentries == old(logentries) + Stamp(clock, |old(logentries)|,
                UploadOutcome(p, UploadResult(box, ctx, json, serverPubKey,
                  Classify(transport(old(sent), Identified(id, UploadRequest(canary, p.xfer)))))))
    {
      ghost var e0 := logentries;
      var res := Do(UploadRequest(canary, p.xfer));
      var fault: Option<Fault> := None;
      var r := NoMatch;
      if res.Failure? {
        fault := Some(res.error);
      } else if res.value.readFailed {
        fault := Some(ReadError);
      } else {
        var plain := Decrypt(box, ctx, serverPubKey, res.value.body);
        if plain.Failure? {
          fault := Some(CryptoFault(plain.error));
        } else {
          var parsed := json.parseResult(plain.value, NoMatch);
          if parsed.None? {
            fault := Some(JsonError);
          } else {
            r := parsed.value;
          }
        }
      }
      ghost var result := UploadResult(box, ctx, json, serverPubKey, res);
      if fault.Some? {
        assert result == Failure(fault.value);
        Log(ProbeFailed(Direction.Upload, p.xfer, p.index, fault.value));
        StampSnoc(clock, |e0|, [], ProbeFailed(Direction.Upload, p.xfer, p.index, fault.value));
        return;
      }
      assert result == Success(r);
      LogVerdicts(Direction.Upload, p, r.header == p.index, r.cookie == p.index, r.body == p.index);
    }

    /** The state after the upload probes `done`, starting from history s0 and log e0. */
    ghost predicate UploadedUpTo(canaries: seq<Str>, s0: seq<Request>, e0: seq<LogEntry>, done: seq<Probe>)
      reads this
    {
      && (forall k :: 0 <= k < |done| ==> done[k].index < |canaries|)
      && sent == s0 + UploadRequests(canaries, done)
      && logentries == e0 + Stamp(clock, |e0|, [TryingUploads] + UploadMessages(s0, canaries, serverPubKey, done))
    }

    /** Before the first upload probe only the opening line is logged. */
    lemma StartUpload(canaries: seq<Str>, s0: seq<Request>, e0: seq<LogEntry>)
      requires sent == s0 && logentries == e0 + [LogEntry(clock(|e0|), TryingUploads)]
      ensures UploadedUpTo(canaries, s0, e0, Probes(0, XferMax))
    {
      StampSnoc(clock, |e0|, [], TryingUploads);
      assert Probes(0, XferMax) == [] && UploadMessages(s0, canaries, serverPubKey, []) == [];
      assert sent == s0 + UploadRequests(canaries, []);
    }

    /** One turn of upload's inner loop: the probe of mask `xfer` for canary `index`,
        given the state the earlier probes left. */
    method UploadTurn(canaries: seq<Str>, index: nat, xfer: nat, ghost s0: seq<Request>, ghost e0: seq<LogEntry>)
      requires index < |canaries| && 1 <= xfer <= XferMax
      requires UploadedUpTo(canaries, s0, e0, Probes(index, XferMax) + Row(index, xfer - 1))
      modifies this`logentries, this`sent
      ensures UploadedUpTo(canaries, s0, e0, Probes(index, XferMax) + Row(index, xfer))
    {
      ghost var done, p := Probes(index, XferMax) + Row(index, xfer - 1), Probe(index, xfer);
      UploadStep(s0, canaries, serverPubKey, index, xfer);
      ghost var before := [TryingUploads] + UploadMessages(s0, canaries, serverPubKey, done);
      ghost var outcome := UploadOutcome(p, UploadResult(box, ctx, json, serverPubKey,
                             Classify(transport(sent, Identified(id, UploadRequest(canaries[index], xfer))))));
      ghost var log := logentries;
      UploadProbe(canaries[index], Probe(index, xfer));
      StampExtend(clock, e0, before, log, outcome);
    }

    /** upload's inner loop for canary `index`: masks 1..8 in turn, given the state the
        earlier canaries left. */
    method UploadCanary(canaries: seq<Str>, index: nat, ghost s0: seq<Request>, ghost e0: seq<LogEntry>)
      requires index < |canaries|
      requires UploadedUpTo(canaries, s0, e0, Probes(index, XferMax))
      modifies this`logentries, this`sent
      ensures UploadedUpTo(canaries, s0, e0, Probes(index + 1, XferMax))
    {
      RowBounds(index, XferMax);
      for xfer := 1 to XferMax + 1
        invariant UploadedUpTo(canaries, s0, e0, Probes(index, XferMax) + Row(index, xfer - 1))
      {
        UploadTurn(canaries, index, xfer, s0, e0);
      }
    }

    /** upload: for every canary index, ascending, and every mask 1..8, one POST carrying
        the canary in the selected channels; a failed probe logs one line and the loops go on. */
    method Upload()
      modifies this`logentries, this`sent
      ensures var ps := Probes(|config.magicStrings|, XferMax);
              && sent == old(sent) + UploadRequests(config.magicStrings, ps)
              && logentries == old(logentries) + Stamp(clock, |old(logentries)|,
                   [TryingUploads] + UploadMessages(old(sent), config.magicStrings, serverPubKey, ps))
    {
      ghost var e0, s0 := logentries, sent;
      Log(TryingUploads);
      var canaries := config.magicStrings;
      StartUpload(canaries, s0, e0);
      for index := 0 to |canaries|
        invariant UploadedUpTo(canaries, s0, e0, Probes(index, XferMax))
      {
        UploadCanary(canaries, index, s0, e0);
      }
    }

    /** report: ships every entry logged so far, encrypted to the server's key; a failure
        is logged and the run still ends normally. */
    method Report(nonce: Option<Nonce>)
      modifies this`logentries, this`sent
      ensures var shipped := old(logentries) + [LogEntry(clock(|old(logentries)|), SubmittingResults)];
              var ct := Encrypt(box, ctx, serverPubKey, nonce, json.entries(shipped));
              && (ct.Failure? ==>
                    sent == old(sent) && logentries == shipped + [LogEntry(clock(|shipped|), EncryptFailed(ct.error))])
              && (ct.Success? ==>
                    var req := Identified(id, LogRequest(ct.value));
                    var res := Classify(transport(old(sent), req));
                    && sent == old(sent) + [req]
                    && logentries == shipped + (if res.Failure? then [LogEntry(clock(|shipped|), SendFailed(res.error))] else []))
    {
      Log(SubmittingResults);
      var buf := json.entries(logentries);
      var ct := Encrypt(box, ctx, serverPubKey, nonce, buf);
      if ct.Failure? {
        Log(EncryptFailed(ct.error));
        return;
      }
      var res := Do(LogRequest(ct.value));
      if res.Failure? {
        Log(SendFailed(res.error));
      }
    }

    /** The first two steps of Run: every download probe, then every upload probe. */
    method ProbeAll()
      modifies this`logentries, this`sent
      ensures var canaries := config.magicStrings;
              var dl := DownloadRequests(Probes(|canaries|, XferMax - 1));
              && sent == old(sent) + dl + UploadRequests(canaries, Probes(|canaries|, XferMax))
              && logentries == old(logentries) + Stamp(clock, |old(logentries)|,
                   ([TryingDownloads] + DownloadMessages(old(sent), canaries, Probes(|canaries|, XferMax - 1))) +
                   ([TryingUploads] + UploadMessages(old(sent) + dl, canaries, serverPubKey, Probes(|canaries|, XferMax))))
    {
      ghost var e0 := logentries;
      ghost var canaries := config.magicStrings;
      Download();
      ghost var e1 := logentries;
      ghost var dm := [TryingDownloads] + DownloadMessages(old(sent), canaries, Probes(|canaries|, XferMax - 1));
      Upload();
      ghost var um := [TryingUploads] + UploadMessages(old(sent) + DownloadRequests(Probes(|canaries|, XferMax - 1)),
                                                       canaries, serverPubKey, Probes(|canaries|, XferMax));
      StampExtend(clock, e0, dm, e1, um);
    }

    /** Run: download, then upload, then report. Every probe request is sent whatever the
        replies, and the report ships everything logged up to it. */
    method Run(nonce: Option<Nonce>)
      modifies this`logentries, this`sent
      ensures var canaries := config.magicStrings;
              var probed := old(sent) + DownloadRequests(Probes(|canaries|, XferMax - 1)) +
                            UploadRequests(canaries, Probes(|canaries|, XferMax));
              var msgs := ([TryingDownloads] + DownloadMessages(old(sent), canaries, Probes(|canaries|, XferMax - 1))) +
                          ([TryingUploads] + UploadMessages(old(sent) + DownloadRequests(Probes(|canaries|, XferMax - 1)),
                                                            canaries, serverPubKey, Probes(|canaries|, XferMax))) +
                          [SubmittingResults];
              var shipped := old(logentries) + Stamp(clock, |old(logentries)|, msgs);
              var ct := Encrypt(box, ctx, serverPubKey, nonce, json.entries(shipped));
              && (ct.Failure? ==>
                    sent == probed && logentries == shipped + [LogEntry(clock(|shipped|), EncryptFailed(ct.error))])
              && (ct.Success? ==>
                    var req := Identified(id, LogRequest(ct.value));
                    var res := Classify(transport(probed, req));
                    && sent == probed + [req]
                    && logentries == shipped + (if res.Failure? then [LogEntry(clock(|shipped|), SendFailed(res.error))] else []))
    {
      ghost var e0 := logentries;
      ghost var canaries := config.magicStrings;
      ghost var dm := [TryingDownloads] + DownloadMessages(sent, canaries, Probes(|canaries|, XferMax - 1));
      ghost var um := [TryingUploads] + UploadMessages(sent + DownloadRequests(Probes(|canaries|, XferMax - 1)),
                                                       canaries, serverPubKey, Probes(|canaries|, XferMax));
      ProbeAll();
      StampLast(clock, e0, dm + um, logentries, SubmittingResults);
      ghost var shipped := e0 + Stamp(clock, |e0|, dm + um + [SubmittingResults]);
      ghost var s2 := sent;
      Report(nonce);
      ghost var ct := Encrypt(box, ctx, serverPubKey, nonce, json.entries(shipped));
      if ct.Success? {
        assert sent == s2 + [Identified(id, LogRequest(ct.value))];
      } else {
        assert sent == s2;
      }
    }
  }
}
