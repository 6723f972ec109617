/**
 * One direction of a tunnel, from the forwarding loops of `connectToTarget`
 * and `connectToServer` in LightSwordX/Socks5/Socks5Server.swift. The loop
 * reads chunks from one socket until a read fails; each chunk is written to
 * the other socket, verbatim on a direct tunnel and XORed with one key byte
 * on a relay tunnel. Here a read is an `Option`: a chunk, or a failure.
 */
module Forwarding {
  import opened Wrappers

  /** How a chunk is transformed before it is written. */
  datatype Obfuscation = Verbatim | Xor(key: bv8)

  /** `data.map { n in n ^ key }`. */
  function XorChunk(chunk: seq<bv8>, key: bv8): seq<bv8>
  {
    seq(|chunk|, i requires 0 <= i < |chunk| => chunk[i] ^ key)
  }

  function Apply(o: Obfuscation, chunk: seq<bv8>): (r: seq<bv8>)
    ensures |r| == |chunk|
    ensures o.Verbatim? ==> r == chunk
    ensures o.Xor? ==> forall i :: 0 <= i < |r| ==> r[i] == chunk[i] ^ o.key
  {
    match o
    case Verbatim => chunk
    case Xor(k) => XorChunk(chunk, k)
  }

  /** Applying the same obfuscation twice restores the chunk. */
  lemma ApplyTwice(o: Obfuscation, chunk: seq<bv8>)
    ensures Apply(o, Apply(o, chunk)) == chunk
  {
    if o.Xor? {
      var once := Apply(o, chunk);
      var twice := Apply(o, once);
      forall i | 0 <= i < |chunk|
        ensures twice[i] == chunk[i]
      {
        assert twice[i] == (chunk[i] ^ o.key) ^ o.key;
      }
    }
  }

  /** A direct tunnel forwards what a relay tunnel with key 0 would. */
  lemma VerbatimIsXorZero(chunk: seq<bv8>)
    ensures Apply(Verbatim, chunk) == Apply(Xor(0), chunk)
  {
  }

  /** The chunks the loop forwards: those read before the first failed read. */
  function Delivered(results: seq<Option<seq<bv8>>>): (d: seq<seq<bv8>>)
    ensures |d| <= |results|
    ensures forall i :: 0 <= i < |d| ==> results[i] == Some(d[i])
    ensures |d| < |results| ==> results[|d|].None?
  {
    if results == [] || results[0].None? then []
    else [results[0].value] + Delivered(results[1..])
  }

  /** The loop ends (and closes both sockets) iff some read fails. */
  ghost predicate SomeReadFails(results: seq<Option<seq<bv8>>>)
  {
    exists i :: 0 <= i < |results| && results[i].None?
  }

  lemma DeliveredStopsAtFailure(results: seq<Option<seq<bv8>>>)
    ensures |Delivered(results)| < |results| <==> SomeReadFails(results)
  {
  }

  /** Each chunk as written to the far socket. */
  function Written(o: Obfuscation, chunks: seq<seq<bv8>>): (w: seq<seq<bv8>>)
    ensures |w| == |chunks|
    ensures forall i :: 0 <= i < |w| ==> w[i] == Apply(o, chunks[i])
  {
    seq(|chunks|, i requires 0 <= i < |chunks| => Apply(o, chunks[i]))
  }

  /** The byte count the loop adds to its counter. */
  function TotalLength(chunks: seq<seq<bv8>>): nat
  {
    if chunks == [] then 0 else TotalLength(chunks[..|chunks| - 1]) + |chunks[|chunks| - 1]|
  }

  /** The byte stream the chunks make up, in order. */
  function Concat(chunks: seq<seq<bv8>>): seq<bv8>
  {
    if chunks == [] then [] else Concat(chunks[..|chunks| - 1]) + chunks[|chunks| - 1]
  }

  /** The counter measures the stream: the total of the chunk lengths is the stream's length. */
  lemma {:induction false} TotalLengthIsStreamLength(chunks: seq<seq<bv8>>)
    ensures TotalLength(chunks) == |Concat(chunks)|
  {
    if chunks != [] {
      TotalLengthIsStreamLength(chunks[..|chunks| - 1]);
    }
  }

  /** Transforming a concatenation transforms each part. */
  lemma ApplyConcat(o: Obfuscation, a: seq<bv8>, b: seq<bv8>)
    ensures Apply(o, a + b) == Apply(o, a) + Apply(o, b)
  {
  }

  /** Writing a prefix of the chunks gives the prefix of what is written. */
  lemma WrittenPrefix(o: Obfuscation, chunks: seq<seq<bv8>>, n: nat)
    requires n <= |chunks|
    ensures Written(o, chunks)[..n] == Written(o, chunks[..n])
  {
  }

  /**
   * Chunking does not matter to the far side: the written stream is the read
   * stream with every byte transformed, in order.
   */
  lemma {:induction false} WrittenStream(o: Obfuscation, chunks: seq<seq<bv8>>)
    ensures Concat(Written(o, chunks)) == Apply(o, Concat(chunks))
  {
    if chunks != [] {
      var n := |chunks| - 1;
      WrittenPrefix(o, chunks, n);
      WrittenStream(o, chunks[..n]);
      ApplyConcat(o, Concat(chunks[..n]), chunks[n]);
    }
  }

  /** The written chunks hold as many bytes as the chunks read. */
  lemma {:induction false} WrittenLength(o: Obfuscation, chunks: seq<seq<bv8>>)
    ensures TotalLength(Written(o, chunks)) == TotalLength(chunks)
  {
    if chunks != [] {
      var n := |chunks| - 1;
      WrittenPrefix(o, chunks, n);
      WrittenLength(o, chunks[..n]);
    }
  }

  /** The receiving end undoes the obfuscation by applying it again. */
  lemma WrittenTwice(o: Obfuscation, chunks: seq<seq<bv8>>)
    ensures Written(o, Written(o, chunks)) == chunks
  {
    forall i | 0 <= i < |chunks|
      ensures Written(o, Written(o, chunks))[i] == chunks[i]
    {
      ApplyTwice(o, chunks[i]);
    }
  }
}
