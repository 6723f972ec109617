/**
 * SOCKS5 method selection (section 3 of RFC 1928) as `handleHandshake` in
 * LightSwordX/Socks5/Socks5Server.swift performs it on the client's greeting
 * `[VER, NMETHODS, METHODS...]`.
 */
module Handshake {
  import opened Sinq

  /**
   * The raw values of `Authentication.NOAUTH` and `Authentication.NONE`.
   * The enum is defined elsewhere; the model only knows that they are bytes.
   */
  datatype AuthCodes = AuthCodes(noAuth: bv8, none: bv8)

  /** What `handleHandshake` returns: whether to go on, and the bytes to send. */
  datatype Negotiation = Negotiation(success: bool, reply: seq<bv8>)

  const SocksVersion: bv8 := 0x05

  /** The client offers `code` among the first `data[1]` method bytes it actually sent. */
  ghost predicate Offers(data: seq<bv8>, code: bv8)
    requires |data| >= 2
  {
    exists i :: 2 <= i < |data| && i < 2 + data[1] as int && data[i] == code
  }

  function HandleHandshake(codes: AuthCodes, data: seq<bv8>): (r: Negotiation)
    ensures |data| < 2 ==> r == Negotiation(false, [SocksVersion, codes.none])
    ensures |data| >= 2 ==> r.success && |r.reply| == 2 && r.reply[0] == SocksVersion
    ensures |data| >= 2 ==> r.reply[1] == if Offers(data, codes.noAuth) then codes.noAuth else codes.none
  {
    if |data| < 2 then
      Negotiation(false, [SocksVersion, codes.none])
    else
      var methods := Take(Skip(data, 2), data[1] as nat);
      assert codes.noAuth in methods <==> Offers(data, codes.noAuth) by {
        if codes.noAuth in methods {
          var j :| 0 <= j < |methods| && methods[j] == codes.noAuth;
          assert data[j + 2] == codes.noAuth;
        }
        if Offers(data, codes.noAuth) {
          var i :| 2 <= i < |data| && i < 2 + data[1] as int && data[i] == codes.noAuth;
          assert methods[i - 2] == codes.noAuth;
        }
      }
      var code := if codes.noAuth in methods then codes.noAuth else codes.none;
      Negotiation(true, [SocksVersion, code])
  }

  /**
   * With distinct codes, the reply selects NOAUTH exactly when the greeting is
   * well-formed enough (two bytes) and offers it.
   */
  lemma NoAuthSelectedIffOffered(codes: AuthCodes, data: seq<bv8>)
    requires codes.noAuth != codes.none
    ensures HandleHandshake(codes, data).reply == [SocksVersion, codes.noAuth]
        <==> |data| >= 2 && Offers(data, codes.noAuth)
  {
  }

  /**
   * Every greeting of two bytes or more is accepted, including one whose
   * reply is NONE ("no acceptable method"): the caller then goes on to read a
   * request instead of closing.
   */
  lemma GreetingWithoutNoAuthIsAccepted(codes: AuthCodes, data: seq<bv8>)
    requires |data| >= 2 && !Offers(data, codes.noAuth)
    ensures HandleHandshake(codes, data) == Negotiation(true, [SocksVersion, codes.none])
  {
  }

  /** Bytes after the declared methods do not influence the negotiation. */
  lemma {:induction false} TrailingBytesIgnored(codes: AuthCodes, data: seq<bv8>, extra: seq<bv8>)
    requires |data| >= 2 && |data| >= 2 + data[1] as int
    ensures HandleHandshake(codes, data + extra) == HandleHandshake(codes, data)
  {
    var whole := data + extra;
    assert whole[1] == data[1];
    if Offers(whole, codes.noAuth) {
      var i :| 2 <= i < |whole| && i < 2 + whole[1] as int && whole[i] == codes.noAuth;
      assert data[i] == codes.noAuth;
    }
    if Offers(data, codes.noAuth) {
      var i :| 2 <= i < |data| && i < 2 + data[1] as int && data[i] == codes.noAuth;
      assert whole[i] == codes.noAuth;
    }
  }

  /** A declared count larger than what was sent only looks at the bytes sent. */
  lemma OverstatedCountSeesSentBytes(codes: AuthCodes, data: seq<bv8>, i: nat)
    requires |data| >= 2 && 2 <= i < |data| && data[i] == codes.noAuth
    requires |data| <= 2 + data[1] as int
    ensures HandleHandshake(codes, data).reply == [SocksVersion, codes.noAuth]
  {
    assert Offers(data, codes.noAuth);
  }
}
