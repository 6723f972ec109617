# LightSwordX SOCKS5 front-end, modelled in Dafny

LightSwordX runs a local SOCKS5 proxy. Each client connection goes either
straight to its destination (a *direct* tunnel) or through an upstream relay
that speaks LightSword's own framing (a *relay* tunnel). This project models
the per-connection logic of `Socks5Server` and the small `String` extension
beside it, and proves what that logic guarantees.

The model covers:

- **Method selection** (`Handshake`). This is the greeting step of section 3 of RFC 1928.
- **Routing** (`Routing`):
  - the `connectLocal` test;
  - the dispatch on the request's command;
  - the GLOBAL/BLACK/WHITE switch;
  - the `==` operator on servers.
- **Tunnel framing** (`Framing`):
  - the direct CONNECT reply, made by patching the request buffer;
  - the relay handshake frame `iv ++ encrypt([tag, pl] ++ padding ++ request)`;
  - the split and un-padding of the relay's reply.
- **Forwarding** (`Forwarding`, `Server.Socks5Server.Pump`):
  - the per-chunk XOR obfuscation;
  - the loop that forwards chunks until the first failed read and counts bytes.
- **Lifecycle** (`Server`). The `running` flag and the listening socket under `startSync` and `stop`.
- **One connection end to end** (`Session`). Greeting, request, dispatch and tunnel set-up.
- **`String(count:byRepeatingString:)` and `length`** (`StringExt`).

Collaborators defined outside `Socks5Server.swift` become parameters:

- The request parser (`Socks5Helper.refineDestination`) is a function argument.
- The cipher (`Crypto.createCipher`, `encrypt`, `decrypt`) is a function argument.
- The random padding length and padding bytes are arguments.
- The raw values of `Authentication.NOAUTH`/`NONE` and of the protocol tag are arguments.
- `String.endsWith`, which is not part of String.swift, is modelled as a plain suffix test (`StringExt.EndsWith`).
- Foundation's `containsString` is modelled as a search for a non-empty substring (`StringExt.ContainsString`).
- SINQ's `skip`/`take`/`any`/`concat` are modelled in `Sinq`; `skip` and `take` saturate (`Sinq.Skip`, `Sinq.Take`).
- Each socket read or connect is given by its outcome: an `Option` for a read, a `bool` for a connect.

Encryption and decryption are not assumed to be inverses. Only the lemmas that
state a round trip require it, and they say so.

Three behaviours of the code are worth stating plainly:

- BLACK mode sends destinations that end with a listed suffix to the **relay** and connects every other destination directly.
  WHITE mode does the reverse: listed destinations are connected **directly**, the rest go to the relay (`Routing.ModeRoute`, `Routing.NonLocalConnectFollowsMode`).
- Every greeting of at least two bytes is reported as a success, even when the reply is NONE ("no acceptable method").
  The handler then goes on and reads a request (`Handshake.GreetingWithoutNoAuthIsAccepted`).
- Locality is plain substring containment, so `210.1.1.1` counts as local because it contains `10.` (`Routing.SubstringLocalityIsLoose`).
  But `172.160.1.1` does **not** match `172.16.`, because the entry's trailing dot must occur as well (`Routing.PrivatePrefixNeedsItsDot`).

## Model

| member | source | states |
|---|---|---|
| `StringExt.InitRepeating` | LightSwordX/Lib/String.swift:13-21 | for `count >= 0` the initializer always succeeds (never nil) and yields `str` repeated `count` times |
| `StringExt.RepeatLength` | LightSwordX/Lib/String.swift:14-20 | the result has `count * |str|` characters |
| `StringExt.RepeatAt` | LightSwordX/Lib/String.swift:14-20 | character `j` of copy `k` of the result is character `j` of `str` |
| `StringExt.RepeatAdd` | LightSwordX/Lib/String.swift:16-18 | repeating `m + n` times is repeating `m` times followed by repeating `n` times |
| `StringExt.RepeatEmpty` | LightSwordX/Lib/String.swift:16-18 | repeating the empty string gives the empty string for every count |
| `StringExt.Length` | LightSwordX/Lib/String.swift:23-27 | `length` is the number of characters of the string |
| `StringExt.LengthOfRepeat` | LightSwordX/Lib/String.swift:23-27 | `length` of the repeated string is `count` times `length` of one copy |
| `Sinq.Skip` | LightSwordX/Socks5/Socks5Server.swift:221 | `skip(n)` keeps the elements after the first `n`, and is empty rather than a failure when there are fewer than `n` |
| `Sinq.Take` | LightSwordX/Socks5/Socks5Server.swift:219 | `take(n)` keeps the first `n` elements, or all of them when there are fewer |
| `Sinq.Any` | LightSwordX/Socks5/Socks5Server.swift:89 | SINQ's `any` holds iff some element of the list satisfies the predicate |
| `Handshake.HandleHandshake` | LightSwordX/Socks5/Socks5Server.swift:122-131 | fewer than 2 bytes: `(false, [5, NONE])`; otherwise success with reply `[5, NOAUTH]` if NOAUTH occurs among the first `data[1]` bytes after the header, else `[5, NONE]` |
| `Handshake.NoAuthSelectedIffOffered` | LightSwordX/Socks5/Socks5Server.swift:127-130 | with distinct codes, the reply is `[5, NOAUTH]` exactly when the greeting has at least two bytes and offers NOAUTH within its declared count |
| `Handshake.GreetingWithoutNoAuthIsAccepted` | LightSwordX/Socks5/Socks5Server.swift:122-131 | a greeting of two or more bytes without NOAUTH still reports success, with reply `[5, NONE]` |
| `Handshake.TrailingBytesIgnored` | LightSwordX/Socks5/Socks5Server.swift:127-128 | bytes after the declared methods do not change the outcome |
| `Handshake.OverstatedCountSeesSentBytes` | LightSwordX/Socks5/Socks5Server.swift:128 | a method count larger than what was sent is cut to the bytes present, and NOAUTH among them is still found |
| `Routing.ConnectLocal` | LightSwordX/Socks5/Socks5Server.swift:89 | true iff the relay address contains a loopback alias, or bypass is on and the destination contains a local-area entry |
| `Routing.ListMatches` | LightSwordX/Socks5/Socks5Server.swift:180 | true iff the list is non-nil and one of its entries is a suffix of the destination |
| `Routing.ModeRoute` | LightSwordX/Socks5/Socks5Server.swift:178-195 | GLOBAL relays; BLACK relays iff the destination is black-listed; WHITE goes direct iff it is white-listed |
| `Routing.Dispatch` | LightSwordX/Socks5/Socks5Server.swift:83-104 | an unparseable request closes the client; BIND and UDP ASSOCIATE do nothing and leave it open; only CONNECT opens a tunnel |
| `Routing.LocalConnectGoesDirect` | LightSwordX/Socks5/Socks5Server.swift:89-99 | a CONNECT with a local relay, or a local destination with bypass on, goes direct whatever the mode and lists |
| `Routing.NonLocalConnectFollowsMode` | LightSwordX/Socks5/Socks5Server.swift:178-195 | for any other CONNECT the path is the mode's: GLOBAL relay, BLACK relay iff listed, WHITE direct iff listed |
| `Routing.MissingListActsAsEmpty` | LightSwordX/Socks5/Socks5Server.swift:180-191 | a nil list routes like an empty one: BLACK sends everything direct, WHITE sends everything to the relay |
| `Routing.SubstringLocalityIsLoose` | LightSwordX/Socks5/Socks5Server.swift:39 | with bypass on, the public address `210.1.1.1` is served directly because it contains `10.` |
| `Routing.PrivatePrefixNeedsItsDot` | LightSwordX/Socks5/Socks5Server.swift:39 | `172.160.1.1` does not contain the entry `172.16.` |
| `Routing.Settings.SameServer` | LightSwordX/Socks5/Socks5Server.swift:262-264 | two servers are equal iff relay address and port, listen address and port, cipher algorithm and password agree |
| `Routing.SameServerIsEquivalence` | LightSwordX/Socks5/Socks5Server.swift:262-264 | `==` on servers is reflexive, symmetric and transitive, and ignores timeout, bypass flag, lists and mode |
| `Framing.ConnectReply` | LightSwordX/Socks5/Socks5Server.swift:144-148 | the direct reply has the request's length, bytes 0 and 1 are `0x05 0x00`, every other byte is the request's |
| `Framing.BuildConnectReply` | LightSwordX/Socks5/Socks5Server.swift:144-146 | copying the request into a buffer and overwriting bytes 0 and 1 produces exactly that reply |
| `Framing.ConnectReplyIdempotent` | LightSwordX/Socks5/Socks5Server.swift:144-146 | patching an already patched buffer changes nothing |
| `Framing.HandshakePlaintext` | LightSwordX/Socks5/Socks5Server.swift:206-208 | the handshake plaintext is `2 + |padding| + |request|` bytes: tag, `pl`, the padding, then the request |
| `Framing.HandshakeRoundTrip` | LightSwordX/Socks5/Socks5Server.swift:206-208 | with `pl` padding bytes, reading the plaintext as tag/length/padding/request gives back exactly those fields |
| `Framing.OutboundFrame` | LightSwordX/Socks5/Socks5Server.swift:210 | the frame sent to the relay starts with the IV, and what follows the IV is the ciphertext |
| `Framing.RelayRecoversRequest` | LightSwordX/Socks5/Socks5Server.swift:205-210 | if decryption undoes encryption, a relay that splits the frame at the IV length recovers tag, `pl`, padding and request |
| `Framing.DecryptReply` | LightSwordX/Socks5/Socks5Server.swift:219-222 | the first IV-length bytes of the reply are the response IV, and the rest is decrypted with it |
| `Framing.ReadRelayReply` | LightSwordX/Socks5/Socks5Server.swift:219-226 | the inbound key is the first plaintext byte; the client gets what follows that many padding bytes, or nothing if the plaintext is shorter |
| `Framing.InboundRoundTrip` | LightSwordX/Socks5/Socks5Server.swift:219-226 | for a reply `riv ++ enc(riv, [ps] ++ padding ++ reply)` with `ps` padding bytes, the key is `ps` and the client gets exactly `reply` |
| `Forwarding.Apply` | LightSwordX/Socks5/Socks5Server.swift:233 | a forwarded chunk keeps its length; byte i is unchanged on a direct tunnel and `data[i] ^ key` on a relay tunnel |
| `Forwarding.ApplyTwice` | LightSwordX/Socks5/Socks5Server.swift:246 | transforming a chunk twice with the same key restores it |
| `Forwarding.VerbatimIsXorZero` | LightSwordX/Socks5/Socks5Server.swift:153 | verbatim forwarding is XOR with key 0 |
| `Forwarding.Delivered` | LightSwordX/Socks5/Socks5Server.swift:151-159 | the forwarded chunks are the successful reads before the first failed read, in order |
| `Forwarding.DeliveredStopsAtFailure` | LightSwordX/Socks5/Socks5Server.swift:155-158 | the loop stops before the end of the reads iff some read fails |
| `Forwarding.Written` | LightSwordX/Socks5/Socks5Server.swift:232-234 | the chunks written out correspond one to one to the chunks read, each transformed |
| `Forwarding.TotalLengthIsStreamLength` | LightSwordX/Socks5/Socks5Server.swift:154 | the bytes counted equal the length of the forwarded stream |
| `Forwarding.WrittenStream` | LightSwordX/Socks5/Socks5Server.swift:230-254 | the written stream is the read stream with every byte transformed, in order, whatever the chunking |
| `Forwarding.WrittenLength` | LightSwordX/Socks5/Socks5Server.swift:233-234 | the chunks written hold exactly as many bytes as the chunks read and counted |
| `Forwarding.WrittenTwice` | LightSwordX/Socks5/Socks5Server.swift:246 | the far end recovers the chunks by applying the same key again |
| `Server.Socks5Server.constructor` | LightSwordX/Socks5/Socks5Server.swift:33-37 | a new server is `running`, has no listening socket, and both counters are 0 |
| `Server.Socks5Server.StartSync` | LightSwordX/Socks5/Socks5Server.swift:49-61 | the outcome is `listen()`'s; on failure `running` is false again; the socket object is set either way |
| `Server.Socks5Server.Stop` | LightSwordX/Socks5/Socks5Server.swift:111-120 | afterwards not running and no socket; the listening socket is closed once if there was one, otherwise nothing is closed |
| `Server.Socks5Server.AddBytes` | LightSwordX/Socks5/Socks5Server.swift:154 | `+=` on one counter adds exactly `n` to it and leaves the other one alone |
| `Server.Socks5Server.Pump` | LightSwordX/Socks5/Socks5Server.swift:150-174 | one forwarding loop writes the transformed delivered chunks and adds exactly their total length to its own counter only; it ends iff a read fails |
| `Server.TotalLengthOfPrefix` | LightSwordX/Socks5/Socks5Server.swift:154 | the counter never decreases as chunks are added |
| `Server.StopTwice` | LightSwordX/Socks5/Socks5Server.swift:111-120 | `stop` is idempotent: two calls close the listener exactly once if it was set and never otherwise, and touch neither settings nor counters |
| `Server.Restart` | LightSwordX/Socks5/Socks5Server.swift:49-61 | after start and stop, a new start succeeds iff its `listen()` does, the server again holds a socket object that a later `stop` can close; settings and counters are untouched |
| `Session.HandleClient` | LightSwordX/Socks5/Socks5Server.swift:64-105 | no greeting: close with nothing sent; otherwise exactly the negotiation reply is sent; after an accepted greeting and a request, the action is `Dispatch`'s (close, idle, or a tunnel on the path chosen by locality and mode); a tunnel opens iff the greeting is long enough, a request is read and parses as CONNECT |
| `Session.DirectTunnel` | LightSwordX/Socks5/Socks5Server.swift:133-148 | a failed connect closes the client; otherwise the client gets the patched request and both directions forward verbatim |
| `Session.RelayTunnel` | LightSwordX/Socks5/Socks5Server.swift:197-226 | a failed connect closes the client; otherwise the handshake frame is sent first; a missing reply closes both; a reply yields the client's bytes, key `pl` upstream and the relay's padding size downstream |
| `Session.GlobalConnectThroughRelay` | LightSwordX/Socks5/Socks5Server.swift:177-226 | GLOBAL, non-local CONNECT with NOAUTH offered: the client gets `[5, NOAUTH]`, the frame carries the request, and a well-formed relay reply gives the client the relay's reply and keys `pl`/`ps` |
| `Session.RelayKeysIndependent` | LightSwordX/Socks5/Socks5Server.swift:223-246 | the downstream key comes from the relay and can differ from the upstream `pl` |

## Left out

- Socket I/O is not modelled. This covers `TCPServer6`/`TCPClient6`: listen, accept, connect, read with timeout, send and close. Reads and connects appear only as their outcomes.
- The accept loop of `startSync` (`while running { accept … }`) is not modelled. It runs until another thread clears `running`, which a sequential model cannot express.
- `startAsync` and all `dispatch_async` concurrency are not modelled. Each forwarding direction is modelled alone and sequentially. How closing one socket ends the other direction, and the atomicity of the counters, are not captured.
- `Crypto.createCipher`, `encrypt`, `decrypt` and `AES.randomIV` are parameters. Their `try!` traps on cipher errors are not modelled.
- `arc4random` is not modelled: `pl` is an input byte.
- `Socks5Helper.refineDestination` is a parameter of `Session.HandleClient`. The raw values of `Authentication` and `VPN_TYPE` are also parameters.
- `print` logging and the `tag` field are not modelled; they carry no behaviour.
- `StringExt.LengthOfRepeat`: a string is a sequence of characters. Swift's `characters.count` counts grapheme clusters, which joining strings can merge; this is not modelled.
- `Framing.ReadRelayReply`: the trap on an empty decrypted reply (`reBuf[0]`) is a precondition, not an error outcome.
- `Framing.BuildConnectReply`: the trap on a request shorter than two bytes is a precondition.
- `Server.Socks5Server.Pump`: the UInt64 overflow trap of `sentBytes += …` is a precondition. Reads left over once the given results run out are outside the model, and then `closed` is false.
- `Server.Socks5Server.StartSync`: a second start replaces the socket object without closing the old one. The model tracks only the newest socket.
- Settings are assumed to be set. In the source every setting is an implicitly unwrapped optional. Reading one while it is nil traps: for example `serverAddr` and `bypassLocal` in the locality test, and `listenAddr`/`listenPort` when the listener is created. The model makes every setting except the two lists a plain value, so it does not capture these traps. The `==` operator likewise compares values, where the source compares optionals.
- `StringExt.InitRepeating`: a negative `count` traps in `0 ..< count`; this is a precondition.
