# mauerspecht, modelled in Dafny

mauerspecht finds out which HTTP channels survive a proxy or filter between a client
and a server. The server holds a list of canary strings ("magic strings"). The client
runs two probes for every canary and every channel mask:

- a download probe: a GET that asks the server to send the canary back in the header,
  the cookie and/or the body;
- an upload probe: a POST that carries the canary in those channels.

The client logs whether each canary arrived intact. Before probing, the client exchanges
NaCl box public keys with the server and fetches the configuration encrypted. At the end it
ships its whole log to the server, encrypted.

The model covers these parts:

- **`bytes.dfy`**: byte strings (`Str`) and the `Option`/`Result` wrappers.
- **`base64url.dfy`**: the padded URL-safe base64 of RFC 4648 (sections 3.2 and 5), which
  the client identity uses. It has round trips in both directions.
- **`decimal.dfy`**: `strconv.Itoa`/`Atoi` for the canary index in the `id` query parameter.
- **`clientid.dfy`**: `ClientId.String` as `Format` and `ClientId.Set`.
  - `Parse` is `Set` as a value.
  - `Set` is also a method on the receiver's array.
- **`crypto.dfy`**: the `nonce ++ sealed` framing of `Encrypt`/`Decrypt`.
  - The NaCl primitive is a `Box` of function values.
  - Its one protocol property, that `open` inverts `seal` for matching key pairs, is the
    predicate `Inverts`.
- **`messages.dfy`**: `Config`, the probe result `Response` (as `ProbeResult`) and `LogEntry`.
  - The client's log lines are a `Message` datatype.
  - JSON is a `Json` record of marshal and unmarshal functions, with the round-trip
    predicate `Faithful`.
- **`http.dfy`**: requests, handler responses and the replies a client receives, as values.
- **`server.dfy`**: the handlers of `server/server.go`.
  - The `Server` class holds the `PubKeys` registry, the served `Config` and the sink of the
    log handler.
  - `kex` and `log` change state.
  - `config`, `patternGet` and `pattern` compute a response.
  - `patternPost` is a loop over the canaries.
  - `New` applies the defaults.
- **`client.dfy`**: the client of `client/client.go`.
  - The network is the oracle `transport`: it gives the exchange for a request, given every
    request sent before.
  - The class records the requests it sends (`sent`) and the log it keeps (`logentries`).
  - `download` and `upload` are nested `for` loops. Each is proved against a specification
    function over the probe matrix `Probes`.
- **`scenario.dfy`**: a client and this model's server joined over a connection that
  delivers every answer intact. Each client step, fed the matching handler's answer, comes
  out as the protocol intends:
  - the identity is recognised;
  - the key exchange registers the client;
  - the configuration arrives;
  - when the canaries are all different and none is empty, every probe reports every
    channel as found;
  - the report reaches the log handler.

Randomness is passed in as `Option` parameters, with `None` meaning `rand.Reader` failed.
This covers the server's key pair and every nonce. The client's identity and key pair are
plain parameters of its constructor. `time.Now` is the client's
`clock`, read once per log entry.

The `/v1/data` handler for GET (`patternGet`) does not read `X-Specht-Id`. The model
follows the code, so any caller gets the mirrored canary.

## Model

| member | source | states |
|---|---|---|
| Base64Url.EncodeSextet | clientid.go:27 | every 6-bit value becomes a character of the URL-safe alphabet |
| Base64Url.DecodeSextet | clientid.go:17 | a character decodes exactly when it is in the alphabet, to a value below 64 that encodes back to it |
| Base64Url.SextetRoundTrip | clientid.go:27 | decoding the character of a 6-bit value gives that value |
| Base64Url.EncodeQuantum | clientid.go:27 | three bytes become four alphabet characters |
| Base64Url.EncodeTail | clientid.go:27 | the last one or two bytes become four characters; the last is padding, and so is the third only for one byte |
| Base64Url.Encode | clientid.go:27 | the output length is 4 * ceil(n / 3) characters; with a length divisible by three there is no padding |
| Base64Url.DecodeQuantum | clientid.go:17 | four characters decode exactly when all are in the alphabet, to three bytes |
| Base64Url.QuantumRoundTrip | clientid.go:27 | a quantum decodes back to its three bytes |
| Base64Url.TailRoundTrip | clientid.go:27 | a padded last quantum decodes back to its one or two bytes |
| Base64Url.QuantumInverse | clientid.go:17 | four alphabet characters are the encoding of what they decode to |
| Base64Url.DecodeEncode | clientid.go:26-28 | decoding the encoding of any byte sequence gives that sequence back |
| Base64Url.EncodeDecode | clientid.go:12-24 | unpadded alphabet text whose length is a multiple of four decodes to 3 bytes per quantum and re-encodes to itself |
| Base64Url.Decode | clientid.go:17 | the canonical decoder; DecodeEncode, EncodeDecode and DecodeLength state that it inverts Encode and what it accepts |
| Base64Url.DecodedLen | clientid.go:13 | three bytes per four characters; ParseRejectsLength and DecodeLength state how Set uses it |
| Base64Url.DecodeLength | clientid.go:13-21 | a successful decode means whole quanta and at most DecodedLen bytes, at least DecodedLen - 2; the full length comes only without padding |
| ClientIds.Parse | clientid.go:12-24 | Set as a value: the length check, the decode, then the decoded-length check; ParseFormat, ParseAccepts, ParseRejectsLength and ParseErrors state what it accepts and which error it gives |
| ClientIds.Format | clientid.go:26-28 | the text of every 24-byte identity is 32 alphabet characters with no padding |
| ClientIds.ParseFormat | clientid.go:12-28 | Set(String(c)) succeeds and restores exactly c |
| ClientIds.ParseAccepts | clientid.go:12-24 | Set accepts exactly the 32-character alphabet strings, and each is the text of the identity it yields |
| ClientIds.ParseRejectsLength | clientid.go:13-15 | any length outside 32..35 (ten characters, say) fails with the string-length error |
| ClientIds.ParseErrors | clientid.go:17-21 | the corrupt-input error comes exactly from invalid base64 of 32 to 35 characters; the decoded-length error only from a padded 32-character string (22 or 23 bytes) |
| ClientIds.Set | clientid.go:12-24 | on success the receiver holds the decoded identity; on every error it is unchanged and the error is the one Parse names |
| Decimal.NatDigits | client/client.go:158 | the decimal text of a natural number is non-empty and all digits |
| Decimal.Itoa | client/client.go:158 | the text is digits, led by '-' for a negative number |
| Decimal.Atoi | server/server.go:135 | every accepted value lies in Go's 64-bit int range |
| Decimal.DigitsRoundTrip | server/server.go:135 | the digits of n read back as n |
| Decimal.AtoiItoa | server/server.go:135-136 | Atoi reads back every 64-bit int Itoa writes |
| Crypto.NewContext | crypto/crypto.go:16-23 | fails exactly when randomness fails; otherwise the private key is the drawn one and the public key matches it |
| Crypto.Encrypt | crypto/crypto.go:25-32 | the nonce followed by the sealed cleartext; EncryptFraming, RoundTrip and DistinctNonces state this |
| Crypto.Decrypt | crypto/crypto.go:34-46 | the length guard, then Open under the leading nonce; DecryptFraming and RoundTrip state this |
| Crypto.EncryptFraming | crypto/crypto.go:25-32 | fails exactly without a nonce; otherwise the first 24 bytes are the nonce and the rest is the cleartext sealed under it |
| Crypto.DecryptFraming | crypto/crypto.go:34-46 | input under 24 bytes always gives the too-short error with its length; otherwise the result is Open of bytes 24.. under the nonce bytes ..24, with the decryption error when Open fails |
| Crypto.RoundTrip | crypto/crypto.go:25-46 | for matching key pairs, what b encrypts to a's key a decrypts with b's key back to the message |
| Crypto.DistinctNonces | crypto/crypto.go:25-32 | encryptions under different nonces never coincide |
| Server.WithDefaults | server/server.go:228-238 | an empty hostname becomes "localhost", empty canaries become the EICAR string, and empty ports become [80]; everything else is kept |
| Server.DefaultsIdempotent | server/server.go:228-238 | applying the defaults twice equals applying them once, and a complete configuration is kept as is |
| Server.ListenPorts | server/server.go:236-240 | the corrected ports are never empty and are those of the served configuration |
| Server.ListenPortsAsWrittenIgnoresDefault | server/server.go:236-240 | without ports, the code as written listens nowhere while the served configuration advertises port 80 |
| Server.GetClient | server/server.go:26-32 | the header yields an identity exactly when it is 32 alphabet characters, and then it is that identity's text |
| Server.CookieValue | server/server.go:100-104 | a cookie starting with "Specht=" yields the rest; any other cookie yields "" |
| Server.LastMatch | server/server.go:109-119 | -1 exactly when no canary equals the value; otherwise an index whose canary equals it, with no later one that does |
| Server.LastMatchStep | server/server.go:109-119 | one more loop turn: the new canary wins if it equals the value, otherwise the earlier answer stands |
| Server.Observe | server/server.go:98-119 | each channel matched against all canaries; LastMatch states the per-channel result and Scenario.UploadIsObserved gives it for an upload probe |
| Server.Mirror | server/server.go:141-151 | X-Specht holds the canary iff header=1, Set-Cookie holds "Specht=" and the canary iff cookie=1, the body is the canary iff body=1, and there are no other headers |
| Server.Server.constructor | server/server.go:218-240 | the server starts with the defaulted configuration, an empty registry and an empty journal, and listens on the ports of the configuration it was given, as written |
| Server.Server.Peer | server/server.go:88-97 | an unidentified client is NotFound, an unregistered one BadRequest; otherwise the result is the identity with its registered key |
| Server.Server.Kex | server/server.go:44-60 | a bad identity or non-POST gives NotFound and a body that is not 32 bytes gives BadRequest, both leaving the registry alone; otherwise the registry is the old one with the key set for this identity, and the answer is the server's public key |
| Server.Server.ServeConfig | server/server.go:62-85 | non-GET or a bad identity gives NotFound, an unregistered client BadRequest, a failed nonce 500; otherwise the nonce and then the configuration sealed to the client's key |
| Server.Server.PatternPostResponse | server/server.go:87-132 | refusals as in Peer, 500 on a failed nonce; otherwise the nonce and then the observation sealed to the client's key |
| Server.Server.PatternPost | server/server.go:87-132 | the loop over the canaries gives exactly the answer PatternPostResponse states |
| Server.Server.PatternGetAsWritten | server/server.go:134-152 | a negative id panics; every other id is answered as by PatternGet |
| Server.Server.PatternGet | server/server.go:134-152 | BadRequest exactly when the id is not an index of a canary; otherwise the canary is mirrored into the requested channels |
| Server.Server.Pattern | server/server.go:154-163 | GET goes to patternGet as written (so a negative id panics), POST to patternPost, and anything else gets NotFound |
| Server.Server.LogBatch | server/server.go:165-189 | only a POST from a registered client whose body decrypts and decodes is accepted, with its identity and entries; every refusal is NotFound or BadRequest |
| Server.Server.Log | server/server.go:165-194 | an accepted batch appends each entry in order, tagged with the sender, and answers 200; a refused one leaves the journal alone |
| Server.NegativeIdPanics | server/server.go:135-141 | the id "-1" parses to -1 and panics as written, so the client sees a transport failure; the corrected handler answers BadRequest |
| Server.New | server/server.go:218-250 | fails exactly when no key pair can be drawn; otherwise a fresh server with the defaulted configuration, an empty registry and the given configuration's ports |
| Client.Channels | client/client.go:128-133 | the channels of a mask are exactly those whose bit is set, in header, cookie, body order |
| Client.MasksAreChannelSets | client/client.go:128-133 | each mask below 8 is the sum of 1, 2 and 4 over its channels, so 1..7 are the non-empty channel sets; 8 selects none |
| Client.Name | client/client.go:137-145 | each channel's word is non-empty |
| Client.NamesAppend | client/client.go:135-148 | the text of two channel lists put together is the two texts put together |
| Client.XferString | client/client.go:135-148 | xfertype.String; XferStringListsChannels and XferStringIdentifiesMask state what the text holds and that it tells masks apart |
| Client.XferStringListsChannels | client/client.go:135-148 | the text is "xfer< ", then the words of exactly the selected channels in order, then ">" |
| Client.NamesInjective | client/client.go:135-148 | different channel lists never have the same text |
| Client.XferStringIdentifiesMask | client/client.go:135-148 | distinct masks below 8 never print alike |
| Client.Probes | client/client.go:152-153 | every probe has an index below the canary count and a mask in 1..width |
| Client.ProbesOrdered | client/client.go:152-153 | probes come in strictly ascending (index, mask) order, so none repeats |
| Client.ProbesComplete | client/client.go:152-153 | every pair of a canary index and a mask in 1..width is probed |
| Client.DownloadQueryFields | client/client.go:157-168 | the query holds the decimal id, plus "1" under header, cookie and body exactly for the selected channels |
| Client.UploadRequestChannels | client/client.go:208-223 | a POST to /v1/data carrying the canary in X-Specht, in the "Specht=" cookie and as body, exactly for the selected channels |
| Client.Identified | client/client.go:30-34 | the request do sends; IdentifiedFields and Scenario.IdentifiedIsRecognised state that it carries the identity and nothing else changes |
| Client.IdentifiedFields | client/client.go:30-34 | do sets X-Specht-Id to the identity's text and leaves the rest of the request alone |
| Client.Classify | client/client.go:35-42 | success exactly for a delivered reply with status 200; a transport error or any other status is a fault |
| Client.KexKey | client/client.go:91-96 | the key is the reply body exactly when it is 32 bytes; otherwise do's fault or the wrong-length error |
| Client.ConfigFrom | client/client.go:97-112 | the configuration step of New on a reply; DecodingFaults and Scenario.ConfigReachesClient state its faults and its result |
| Client.UploadResult | client/client.go:229-244 | the decrypted ProbeResult of an upload reply; DecodingFaults and Scenario.UploadFindsEveryChannel state its faults and its result |
| Client.DecodingFaults | client/client.go:102-112 | the config and upload replies fail with do's fault, then a read error, a crypto error or a JSON error, in that order; otherwise they give what unmarshal gives |
| Client.VerdictsPerChannel | client/client.go:178-199 | one verdict per selected channel, in channel order, each carrying that channel's finding |
| Client.DownloadOutcome | client/client.go:173-199 | the lines of one download probe; DownloadVerdicts states them |
| Client.DownloadVerdicts | client/client.go:173-199 | a failed probe logs one failure line; a successful one logs one verdict per selected channel, found iff header, Set-Cookie or body equals the canary exactly |
| Client.UploadOutcome | client/client.go:245-265 | the lines of one upload probe; UploadVerdicts states them |
| Client.UploadVerdicts | client/client.go:224-265 | a failed probe logs one failure line; a successful one logs one verdict per selected channel, found iff the result reports this probe's canary index there |
| Client.UploadAtXferMax | client/client.go:207-223 | the mask-8 upload sends no canary and logs no verdict, at most one failure line |
| Client.Stamp | client/client.go:116-124 | one log entry per message |
| Client.Client.constructor | client/client.go:50-80 | the client starts with its identity and key pair, an empty configuration, and nothing logged or sent |
| Client.Client.Log | client/client.go:116-124 | appends exactly one entry, stamped by the clock, to the end |
| Client.Client.Do | client/client.go:30-43 | sends exactly the identified request; the result is Classify of the exchange the transport gives it |
| Client.Client.Handshake | client/client.go:81-113 | sends the kex request and, only if the key is 32 bytes, the config request; logs the intro lines; stores the key and the decrypted configuration, or reports the first fault and keeps the old configuration |
| Client.Client.LogVerdicts | client/client.go:178-199 | logs exactly Verdicts, in order |
| Client.Client.DownloadProbe | client/client.go:154-199 | sends one GET and logs exactly DownloadOutcome of its reply |
| Client.Client.DownloadTurn | client/client.go:153-200 | one inner-loop turn extends the sent requests and the log by one probe |
| Client.Client.DownloadCanary | client/client.go:152-201 | one outer-loop turn covers masks 1..7 for one canary |
| Client.Client.Download | client/client.go:150-202 | sends one GET per probe of Probes(canaries, 7) in order, and logs "Trying downloads" and then each probe's outcome |
| Client.Client.UploadProbe | client/client.go:208-265 | sends one POST and logs exactly UploadOutcome of its decrypted, decoded reply |
| Client.Client.UploadTurn | client/client.go:207-266 | one inner-loop turn extends the sent requests and the log by one probe |
| Client.Client.UploadCanary | client/client.go:206-267 | one outer-loop turn covers masks 1..8 for one canary |
| Client.Client.Upload | client/client.go:204-268 | sends one POST per probe of Probes(canaries, 8) in order, and logs "Trying uploads" and then each probe's outcome |
| Client.Client.Report | client/client.go:270-293 | ships every entry logged so far, including "Submitting results", encrypted to the server; an encryption failure sends nothing, and a failure logs one line |
| Client.Client.ProbeAll | client/client.go:296-297 | every download probe and then every upload probe, each seeing the requests before it |
| Client.Client.Run | client/client.go:295-299 | download, then upload, then report: every probe is sent whatever the replies, and the report carries the whole log up to it |
| Scenario.IdentifiedIsRecognised | server/server.go:26-32 | the server reads back the identity do puts in X-Specht-Id |
| Scenario.VerdictsIgnoreUnselected | client/client.go:178-199 | the findings of unselected channels never reach the verdict lines |
| Scenario.DownloadFindsEveryChannel | client/client.go:153-199 | a download probe answered by patternGet as written logs found for every selected channel |
| Scenario.LastMatchOwnIndex | server/server.go:109-119 | with distinct canaries, the last match of canary i is i |
| Scenario.UploadIsObserved | server/server.go:98-119 | when the canaries are all different and none is empty, patternPost sees the probe's index in exactly the channels the upload selects, and -1 elsewhere |
| Scenario.UploadFindsEveryChannel | client/client.go:224-265 | for a registered client and canaries that are all different and non-empty, the client decrypts exactly what patternPost observed and logs found for every selected channel |
| Scenario.ConfigReachesClient | client/client.go:97-112 | the configuration the server serves is exactly what the client decrypts and decodes |
| Scenario.UnregisteredClientRefused | server/server.go:68-72 | an unregistered client gets 400 for the configuration and reports a bad status |
| Scenario.KeyExchange | server/server.go:44-60 | kex registers the client's key under its identity, and the client receives the server's key |
| Scenario.ReportReachesServer | server/server.go:165-189 | the log handler accepts the report with the sender's identity and exactly the shipped entries |

## Left out

- The NaCl box primitive (Curve25519, XSalsa20-Poly1305) and `crypto/rand`. The primitive is
  a parameter, and its one property `Inverts` is a hypothesis of the round-trip lemmas.
  The random values are `Option` parameters.
- JSON text and `json.Marshal`/`Unmarshal`. They are a parameter (`Json`), and `Faithful`
  states their round trip. The `json.Marshal` failure branches are not modelled: report's, config's
  and patternPost's (a 500). Marshalling these plain records does not fail.
- The text of log lines (`fmt.Sprintf`, `xfertype.String` inside lines, `log.Print*` to
  stderr). Lines are `Message` values. `XferString` is modelled on its own.
- Timestamps and RFC 3339 formatting. `time.Now` is the abstract `clock`.
- The HTTP details:
  - URL parsing and query encoding;
  - proxy setup and `http.Client`/`Transport` construction;
  - the `Content-Type` and error text of `http.Error`;
  - the `logo` banner and the mux in `setupServer`;
  - `net.Listen`, `Serve` goroutines and `Close`.
  Requests and responses are values, and routing is by handler.
- What net/http and encoding/json do to unusual canary bytes. The scenario lemmas
  (Scenario.DownloadFindsEveryChannel, Scenario.UploadFindsEveryChannel,
  Scenario.ConfigReachesClient) assume every answer and JSON value arrives intact. In Go
  that holds only for canaries free of these characters:
  - leading or trailing blanks, which header parsing trims;
  - CR or LF, which the server writes as a space in a header value;
  - other control characters, with which the client transport refuses a header value;
  - invalid UTF-8, which json.Marshal replaces with U+FFFD.
  The default EICAR canary has none of them.
- Concurrency. Handlers run one request at a time against the registry, so there is no
  locking.
- The `log.Printf` in `patternGet` when a request is refused.
- Go base64 decoder quirks (it skips CR and LF). The decoder is the canonical RFC 4648 one.
- `cmd/server`, `cmd/client` and the integration test. `scenario.dfy` states what their
  run is meant to show.
- Client.Client.Handshake: the "Using proxy" line and the proxy and base-URL parse errors of
  `New` are not modelled. The parse is an external library call.
- Client.Client.constructor: the identity and key pair are parameters, so New's failures
  when drawing them are not modelled.
- The structure of the Go loops. Their bodies are helper methods: DownloadProbe,
  DownloadTurn, DownloadCanary and their upload twins. Each keeps the order and the
  effects of the Go loop.

## Findings

| source | as written | input that shows it | evidently intended | confidence | as-written member | corrected member |
|---|---|---|---|---|---|---|
| server/server.go:136 | the only range check on the id is `patternId >= len(MagicStrings)` | GET /v1/data?id=-1 passes the check, and indexing by -1 panics, dropping the connection | answer 400 for every id that is not a canary index | not executed | Server.Server.PatternGetAsWritten, Server.Server.Pattern, Server.NegativeIdPanics | Server.Server.PatternGet |
| server/server.go:240 | New listens on the ports of its argument `config.HTTPPorts`, not the defaulted `s.Config.HTTPPorts` | a Config with no ports listens on no port, yet the served configuration advertises [80] | listen on the defaulted ports | not executed | Server.ListenPortsAsWritten, Server.Server.constructor, Server.ListenPortsAsWrittenIgnoresDefault | Server.ListenPorts |
