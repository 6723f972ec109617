/**
 * The bytes exchanged when a tunnel is set up, from `connectToTarget` and
 * `connectToServer` in LightSwordX/Socks5/Socks5Server.swift: the CONNECT
 * reply of a direct tunnel, and the relay handshake's outbound frame and
 * inbound reply. The cipher is a parameter: nothing is assumed about it
 * except where a lemma says so.
 */
module Framing {
  import opened Wrappers
  import opened Sinq

  /**
   * The direct tunnel's CONNECT reply: the request buffer with its first two
   * bytes (VER, CMD) turned into VER = 5 and REP = 0 ("succeeded", section 6
   * of RFC 1928); every other byte, and so the address fields, stays.
   */
  function ConnectReply(requestBuf: seq<bv8>): (reply: seq<bv8>)
    requires |requestBuf| >= 2
    ensures |reply| == |requestBuf|
    ensures reply[0] == 0x05 && reply[1] == 0x00
    ensures forall i :: 2 <= i < |reply| ==> reply[i] == requestBuf[i]
  {
    [0x05, 0x00] + requestBuf[2..]
  }

  /**
   * The copy-and-patch of `connectToTarget`: copy the request into a fresh
   * buffer, then overwrite bytes 0 and 1. A buffer shorter than two bytes
   * traps in the source.
   */
  method BuildConnectReply(requestBuf: seq<bv8>) returns (reply: seq<bv8>)
    requires |requestBuf| >= 2
    ensures reply == ConnectReply(requestBuf)
  {
    var buf := new bv8[|requestBuf|];
    forall i | 0 <= i < buf.Length {
      buf[i] := requestBuf[i];
    }
    buf[0] := 0x05;
    buf[1] := 0x00;
    reply := buf[..];
  }

  /** A reply built from a reply is the same reply: the patch is idempotent. */
  lemma ConnectReplyIdempotent(requestBuf: seq<bv8>)
    requires |requestBuf| >= 2
    ensures ConnectReply(ConnectReply(requestBuf)) == ConnectReply(requestBuf)
  {
  }

  /** The plaintext of the outbound handshake: `[tag, pl] ++ padding ++ request`. */
  function HandshakePlaintext(tag: bv8, pl: bv8, padding: seq<bv8>, requestBuf: seq<bv8>): (p: seq<bv8>)
    ensures |p| == 2 + |padding| + |requestBuf|
    ensures p[0] == tag && p[1] == pl
    ensures p[2..2 + |padding|] == padding && p[2 + |padding|..] == requestBuf
  {
    [tag, pl] + padding + requestBuf
  }

  /** The fields of a handshake plaintext, as the relay reads them. */
  datatype HandshakeFields = HandshakeFields(tag: bv8, pl: bv8, padding: seq<bv8>, request: seq<bv8>)

  /** The relay's reading of a handshake plaintext: tag, length byte, that many padding bytes, then the request. */
  function ParseHandshake(p: seq<bv8>): (r: Option<HandshakeFields>)
    ensures r.Some? <==> |p| >= 2 && |p| >= 2 + p[1] as int
    ensures r.Some? ==> |r.value.padding| == r.value.pl as int
  {
    if |p| < 2 || |p| < 2 + p[1] as int then None
    else Some(HandshakeFields(p[0], p[1], p[2..2 + p[1] as int], p[2 + p[1] as int..]))
  }

  /** The plaintext is read back as what it was built from, when there are `pl` padding bytes. */
  lemma HandshakeRoundTrip(tag: bv8, pl: bv8, padding: seq<bv8>, requestBuf: seq<bv8>)
    requires |padding| == pl as int
    ensures ParseHandshake(HandshakePlaintext(tag, pl, padding, requestBuf)) == Some(HandshakeFields(tag, pl, padding, requestBuf))
  {
    var p := HandshakePlaintext(tag, pl, padding, requestBuf);
    assert p[2..2 + pl as int] == padding;
    assert p[2 + pl as int..] == requestBuf;
  }

  /** What is sent to the relay: the IV in the clear, then the encrypted plaintext. */
  function OutboundFrame(iv: seq<bv8>, encrypt: seq<bv8> -> seq<bv8>, plaintext: seq<bv8>): (frame: seq<bv8>)
    ensures |frame| == |iv| + |encrypt(plaintext)|
    ensures Take(frame, |iv|) == iv
    ensures Skip(frame, |iv|) == encrypt(plaintext)
  {
    TakeSkipConcat(iv, encrypt(plaintext));
    iv + encrypt(plaintext)
  }

  /**
   * If decryption undoes encryption, a relay that splits the frame at the IV
   * length and decrypts the rest recovers tag, padding length, padding and
   * the client's request.
   */
  lemma RelayRecoversRequest(iv: seq<bv8>, encrypt: seq<bv8> -> seq<bv8>, decrypt: seq<bv8> -> seq<bv8>,
                                               tag: bv8, pl: bv8, padding: seq<bv8>, requestBuf: seq<bv8>)
    requires forall x :: decrypt(encrypt(x)) == x
    requires |padding| == pl as int
    ensures var frame := OutboundFrame(iv, encrypt, HandshakePlaintext(tag, pl, padding, requestBuf));
            ParseHandshake(decrypt(Skip(frame, |iv|))) == Some(HandshakeFields(tag, pl, padding, requestBuf))
  {
    HandshakeRoundTrip(tag, pl, padding, requestBuf);
  }

  /** The outcome of the relay's handshake reply: the inbound XOR key and the bytes for the client. */
  datatype RelayReply = RelayReply(paddingSize: bv8, clientReply: seq<bv8>)

  /** The relay's reply decrypted with the IV it carries: `decrypt(iv, ciphertext)`. */
  function DecryptReply(ivLen: nat, decrypt: (seq<bv8>, seq<bv8>) -> seq<bv8>, data: seq<bv8>): seq<bv8>
  {
    decrypt(Take(data, ivLen), Skip(data, ivLen))
  }

  /**
   * The un-padding of the relay's reply: the first plaintext byte is the
   * padding size, that many bytes are dropped, the rest goes to the client
   * (nothing, if the plaintext is too short). An empty plaintext traps on
   * `reBuf[0]` in the source, hence the precondition.
   */
  function ReadRelayReply(ivLen: nat, decrypt: (seq<bv8>, seq<bv8>) -> seq<bv8>, data: seq<bv8>): (r: RelayReply)
    requires |DecryptReply(ivLen, decrypt, data)| > 0
    ensures var plain := DecryptReply(ivLen, decrypt, data);
            && r.paddingSize == plain[0]
            && |r.clientReply| <= |plain|
            && (|plain| >= 1 + r.paddingSize as int ==> plain == plain[..1 + r.paddingSize as int] + r.clientReply)
            && (|plain| <= 1 + r.paddingSize as int ==> r.clientReply == [])
  {
    var plain := DecryptReply(ivLen, decrypt, data);
    RelayReply(plain[0], Skip(plain, 1 + plain[0] as int))
  }

  /**
   * A relay that answers `riv ++ enc(riv, [ps] ++ padding ++ reply)`, with
   * `ps` padding bytes and a decryption that undoes its encryption, has
   * `ps` taken as the inbound key and exactly `reply` handed to the client.
   */
  lemma InboundRoundTrip(riv: seq<bv8>, encrypt: (seq<bv8>, seq<bv8>) -> seq<bv8>,
                                           decrypt: (seq<bv8>, seq<bv8>) -> seq<bv8>,
                                           ps: bv8, padding: seq<bv8>, reply: seq<bv8>)
    requires forall iv, x :: decrypt(iv, encrypt(iv, x)) == x
    requires |padding| == ps as int
    ensures var data := riv + encrypt(riv, [ps] + padding + reply);
            && |DecryptReply(|riv|, decrypt, data)| > 0
            && ReadRelayReply(|riv|, decrypt, data) == RelayReply(ps, reply)
  {
    var plain := [ps] + padding + reply;
    var data := riv + encrypt(riv, plain);
    TakeSkipConcat(riv, encrypt(riv, plain));
    assert DecryptReply(|riv|, decrypt, data) == plain;
    assert plain[1 + ps as int..] == reply;
  }
}
