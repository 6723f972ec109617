/**
 * One client connection of LightSwordX/Socks5/Socks5Server.swift, from the
 * greeting to the start of forwarding: the handler closure spawned by the
 * accept loop, then `connectToTarget` (direct tunnel) or the relay part of
 * `connectToServer`. Socket reads and connects are given as their outcomes;
 * the request parser and the cipher are given as functions.
 */
module Session {
  import opened Wrappers
  import opened Handshake
  import opened Routing
  import opened Framing
  import opened Forwarding

  /** What the handler has sent to the client, and what it does next. */
  datatype ClientStep = ClientStep(sent: seq<seq<bv8>>, action: Action)

  /**
   * The handler: read the greeting (`hello`), answer it, give up unless it
   * succeeded, read the request (`data`), parse it, dispatch.
   */
  function HandleClient(codes: AuthCodes, s: Settings, hello: Option<seq<bv8>>, data: Option<seq<bv8>>,
                        parse: seq<bv8> -> Option<Request>): (r: ClientStep)
    ensures hello.None? ==> r == ClientStep([], CloseClient)
    ensures hello.Some? ==> r.sent == [HandleHandshake(codes, hello.value).reply]
    ensures hello.Some? && |hello.value| >= 2 && data.Some? ==> r.action == Dispatch(s, parse(data.value))
    ensures r.action.Tunnel? <==> hello.Some? && |hello.value| >= 2 && data.Some?
                                  && parse(data.value).Some? && parse(data.value).value.cmd == Connect
    ensures r.action == Idle <==> hello.Some? && |hello.value| >= 2 && data.Some?
                                  && parse(data.value).Some? && parse(data.value).value.cmd != Connect
  {
    match hello
    case None => ClientStep([], CloseClient)
    case Some(greeting) =>
      var negotiation := HandleHandshake(codes, greeting);
      if !negotiation.success then ClientStep([negotiation.reply], CloseClient)
      else
        match data
        case None => ClientStep([negotiation.reply], CloseClient)
        case Some(buf) => ClientStep([negotiation.reply], Dispatch(s, parse(buf)))
  }

  /**
   * How a tunnel set-up ends: the far side was unreachable (the client is
   * closed); the relay took the handshake but its reply never came (both
   * closed); or forwarding starts, after `toRelay` went to the relay and
   * `toClient` to the client, with one obfuscation per direction.
   */
  datatype TunnelStep =
    | ConnectFailed
    | HandshakeFailed(toRelay: seq<bv8>)
    | Forwarding(toRelay: seq<bv8>, toClient: seq<bv8>, upstream: Obfuscation, downstream: Obfuscation)

  /** `connectToTarget`: `connectOk` is the outcome of connecting to the destination. */
  function DirectTunnel(connectOk: bool, requestBuf: seq<bv8>): (t: TunnelStep)
    requires connectOk ==> |requestBuf| >= 2
    ensures t.ConnectFailed? <==> !connectOk
    ensures t.Forwarding? <==> connectOk
    ensures t.Forwarding? ==> t.toRelay == [] && t.upstream == Verbatim && t.downstream == Verbatim
    ensures t.Forwarding? ==> |t.toClient| == |requestBuf| && t.toClient[..2] == [0x05, 0x00]
                              && t.toClient[2..] == requestBuf[2..]
  {
    if !connectOk then ConnectFailed
    else Forwarding([], ConnectReply(requestBuf), Verbatim, Verbatim)
  }

  /**
   * The relay part of `connectToServer`: connect (`connectOk`), send the
   * handshake frame, read the relay's reply (`reply`), hand its payload to the
   * client and forward with `pl` upstream and the relay's padding size
   * downstream. `iv` and `encrypt` come from the cipher set-up, `pl` and
   * `padding` from the random source.
   */
  function RelayTunnel(connectOk: bool, iv: seq<bv8>, encrypt: seq<bv8> -> seq<bv8>, tag: bv8, pl: bv8,
                       padding: seq<bv8>, requestBuf: seq<bv8>, reply: Option<seq<bv8>>,
                       decrypt: (seq<bv8>, seq<bv8>) -> seq<bv8>): (t: TunnelStep)
    requires connectOk && reply.Some? ==> |DecryptReply(|iv|, decrypt, reply.value)| > 0
    ensures t.ConnectFailed? <==> !connectOk
    ensures t.HandshakeFailed? <==> connectOk && reply.None?
    ensures !t.ConnectFailed? ==> t.toRelay == OutboundFrame(iv, encrypt, HandshakePlaintext(tag, pl, padding, requestBuf))
    ensures t.Forwarding? ==> t.upstream == Xor(pl)
                              && t.downstream == Xor(ReadRelayReply(|iv|, decrypt, reply.value).paddingSize)
                              && t.toClient == ReadRelayReply(|iv|, decrypt, reply.value).clientReply
  {
    if !connectOk then ConnectFailed
    else
      var frame := OutboundFrame(iv, encrypt, HandshakePlaintext(tag, pl, padding, requestBuf));
      match reply
      case None => HandshakeFailed(frame)
      case Some(data) =>
        var r := ReadRelayReply(|iv|, decrypt, data);
        Forwarding(frame, r.clientReply, Xor(pl), Xor(r.paddingSize))
  }

  /**
   * A GLOBAL-mode server, neither the relay nor the destination local, a
   * greeting that offers NOAUTH and a CONNECT request: the client gets
   * `[5, NOAUTH]` and the connection goes through the relay, whose first and
   * only handshake frame carries the request and whose inbound reply, built
   * by a relay whose decryption undoes its encryption, gives the client the
   * relay's reply and sets the two XOR keys.
   */
  lemma GlobalConnectThroughRelay(
    codes: AuthCodes, s: Settings, hello: seq<bv8>, data: seq<bv8>, parse: seq<bv8> -> Option<Request>,
    iv: seq<bv8>, encrypt: seq<bv8> -> seq<bv8>, tag: bv8, pl: bv8, padding: seq<bv8>,
    riv: seq<bv8>, relayEncrypt: (seq<bv8>, seq<bv8>) -> seq<bv8>, decrypt: (seq<bv8>, seq<bv8>) -> seq<bv8>,
    ps: bv8, relayPadding: seq<bv8>, relayReply: seq<bv8>)
    requires s.proxyMode == Global
    requires |hello| >= 2 && Offers(hello, codes.noAuth)
    requires parse(data).Some? && parse(data).value.cmd == Connect
    requires !RelayIsLocal(s) && !(s.bypassLocal && DestinationIsLocal(parse(data).value.addr))
    requires |riv| == |iv|
    requires forall v, x :: decrypt(v, relayEncrypt(v, x)) == x
    requires |relayPadding| == ps as int
    ensures HandleClient(codes, s, Some(hello), Some(data), parse) == ClientStep([[SocksVersion, codes.noAuth]], Tunnel(Relay))
    ensures var answer := riv + relayEncrypt(riv, [ps] + relayPadding + relayReply);
            && |DecryptReply(|iv|, decrypt, answer)| > 0
            && RelayTunnel(true, iv, encrypt, tag, pl, padding, data, Some(answer), decrypt)
               == Forwarding(OutboundFrame(iv, encrypt, HandshakePlaintext(tag, pl, padding, data)),
                             relayReply, Xor(pl), Xor(ps))
  {
    NonLocalConnectFollowsMode(s, parse(data).value);
    InboundRoundTrip(riv, relayEncrypt, decrypt, ps, relayPadding, relayReply);
  }

  /** Direction keys are independent: the relay's padding size need not equal the local `pl`. */
  lemma RelayKeysIndependent(iv: seq<bv8>, encrypt: seq<bv8> -> seq<bv8>, tag: bv8, pl: bv8,
                                               padding: seq<bv8>, requestBuf: seq<bv8>, data: seq<bv8>,
                                               decrypt: (seq<bv8>, seq<bv8>) -> seq<bv8>)
    requires |DecryptReply(|iv|, decrypt, data)| > 0
    requires DecryptReply(|iv|, decrypt, data)[0] != pl
    ensures var t := RelayTunnel(true, iv, encrypt, tag, pl, padding, requestBuf, Some(data), decrypt);
            t.Forwarding? && t.upstream != t.downstream
  {
  }
}
