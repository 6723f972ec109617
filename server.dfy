/**
 * The `Socks5Server` object of LightSwordX/Socks5/Socks5Server.swift: its
 * lifecycle flags (`running`, whether `server` is set) and its two traffic
 * counters, which the forwarding loops increase chunk by chunk.
 */
module Server {
  import opened Wrappers
  import opened Routing
  import opened Forwarding

  /** The counters are `UInt64`; Swift traps when `+=` would reach this bound. */
  const UInt64Bound: int := 0x1_0000_0000_0000_0000

  /** Client to far side (counted in `sentBytes`), or far side to client (`receivedBytes`). */
  datatype Direction = Upstream | Downstream

  class Socks5Server {
    var settings: Settings
    var running: bool
    /** `server != nil`: a listening socket object has been created and not yet released. */
    var hasServer: bool
    /** The listening socket is open. */
    var listening: bool
    var sentBytes: nat
    var receivedBytes: nat
    /** How many times `stop` has closed the `server` socket object (listening or not). */
    ghost var listenerCloses: nat

    ghost predicate Valid()
      reads this
    {
      sentBytes < UInt64Bound && receivedBytes < UInt64Bound && (listening ==> hasServer)
    }

    /** A fresh server: `running` starts out true, `server` nil, both counters zero. */
    constructor (settings: Settings)
      ensures Valid() && this.settings == settings
      ensures running && !hasServer && !listening
      ensures sentBytes == 0 && receivedBytes == 0 && listenerCloses == 0
    {
      this.settings := settings;
      running := true;
      hasServer := false;
      listening := false;
      sentBytes := 0;
      receivedBytes := 0;
      listenerCloses := 0;
    }

    /** The counter that traffic in direction `dir` increases. */
    function Counter(dir: Direction): nat
      reads this
    {
      if dir == Upstream then sentBytes else receivedBytes
    }

    /**
     * `startSync` up to the success callback: raise `running`, create the
     * listening socket, and lower `running` again if `listen()` (whose result
     * is `listenOk`) fails. The socket object stays assigned either way.
     */
    method StartSync(listenOk: bool) returns (success: bool)
      requires Valid()
      modifies this`running, this`hasServer, this`listening
      ensures Valid()
      ensures success == listenOk
      ensures hasServer && listening == listenOk && running == listenOk
    {
      running := true;
      hasServer := true;
      listening := listenOk;
      if !listenOk {
        running := false;
        success := false;
        return;
      }
      success := true;
    }

    /** `stop`: lower `running`; close and release the listening socket if there is one. */
    method Stop()
      requires Valid()
      modifies this`running, this`hasServer, this`listening, this`listenerCloses
      ensures Valid()
      ensures !running && !hasServer && !listening
      ensures listenerCloses == old(listenerCloses) + if old(hasServer) then 1 else 0
    {
      running := false;
      if !hasServer {
        return;
      }
      listening := false;
      listenerCloses := listenerCloses + 1;
      hasServer := false;
    }

    /** `sentBytes += n` or `receivedBytes += n`. */
    method AddBytes(dir: Direction, n: nat)
      requires Valid() && Counter(dir) + n < UInt64Bound
      modifies this`sentBytes, this`receivedBytes
      ensures Valid()
      ensures Counter(dir) == old(Counter(dir)) + n
      ensures dir == Upstream ==> receivedBytes == old(receivedBytes)
      ensures dir == Downstream ==> sentBytes == old(sentBytes)
    {
      if dir == Upstream {
        sentBytes := sentBytes + n;
      } else {
        receivedBytes := receivedBytes + n;
      }
    }

    /**
     * One forwarding loop over the given read results: every chunk read
     * before the first failed read is written out transformed by `o` and its
     * length added to the direction's counter; the first failed read closes
     * both sockets and ends the loop. When every given read succeeds the loop
     * has not ended yet (`closed` is false). The precondition excludes the
     * counter overflow, which traps in the source.
     */
    method Pump(dir: Direction, o: Obfuscation, results: seq<Option<seq<bv8>>>)
      returns (written: seq<seq<bv8>>, closed: bool)
      requires Valid()
      requires Counter(dir) + TotalLength(Delivered(results)) < UInt64Bound
      modifies this`sentBytes, this`receivedBytes
      ensures Valid()
      ensures written == Written(o, Delivered(results))
      ensures closed <==> SomeReadFails(results)
      ensures Counter(dir) == old(Counter(dir)) + TotalLength(Delivered(results))
      ensures dir == Upstream ==> receivedBytes == old(receivedBytes)
      ensures dir == Downstream ==> sentBytes == old(sentBytes)
    {
      ghost var d := Delivered(results);
      written := [];
      closed := false;
      var i := 0;
      while i < |results|
        invariant i <= |d|
        invariant written == Written(o, d[..i])
        invariant Valid()
        invariant Counter(dir) == old(Counter(dir)) + TotalLength(d[..i])
        invariant dir == Upstream ==> receivedBytes == old(receivedBytes)
        invariant dir == Downstream ==> sentBytes == old(sentBytes)
      {
        var result := results[i];
        if result.None? {
          closed := true;
          break;
        } else {
          var data := result.value;
          assert i < |d| && d[i] == data;
          PrefixStep(o, d, i);
          TotalLengthOfPrefix(d, i + 1);
          written := written + [Apply(o, data)];
          AddBytes(dir, |data|);
          i := i + 1;
        }
      }
      assert closed <==> i < |results|;
      assert i == |d| && d[..i] == d;
      DeliveredStopsAtFailure(results);
    }
  }

  /** Extending a prefix of the chunks by one chunk extends what is written and counted by that chunk. */
  lemma PrefixStep(o: Obfuscation, chunks: seq<seq<bv8>>, i: nat)
    requires i < |chunks|
    ensures Written(o, chunks[..i + 1]) == Written(o, chunks[..i]) + [Apply(o, chunks[i])]
    ensures TotalLength(chunks[..i + 1]) == TotalLength(chunks[..i]) + |chunks[i]|
  {
    assert chunks[..i + 1][..i] == chunks[..i];
  }

  /** A prefix of the chunks never holds more bytes than all of them. */
  lemma {:induction false} TotalLengthOfPrefix(chunks: seq<seq<bv8>>, n: nat)
    requires n <= |chunks|
    ensures TotalLength(chunks[..n]) <= TotalLength(chunks)
  {
    if n < |chunks| {
      var m := |chunks| - 1;
      assert chunks[..m][..n] == chunks[..n];
      TotalLengthOfPrefix(chunks[..m], n);
    } else {
      assert chunks[..n] == chunks;
    }
  }

  /** Calling `stop` twice closes the listening socket only if the first call found one, and leaves the server stopped. */
  method StopTwice(server: Socks5Server)
    requires server.Valid()
    modifies server
    ensures !server.running && !server.hasServer && !server.listening
    ensures server.listenerCloses == old(server.listenerCloses) + if old(server.hasServer) then 1 else 0
    ensures server.settings == old(server.settings)
    ensures server.sentBytes == old(server.sentBytes) && server.receivedBytes == old(server.receivedBytes)
  {
    server.Stop();
    server.Stop();
  }

  /** Start, stop and start again: a stopped server can be started anew. */
  method Restart(server: Socks5Server, firstListen: bool, secondListen: bool) returns (success: bool)
    requires server.Valid()
    modifies server
    ensures server.Valid() && server.hasServer
    ensures success == secondListen && server.running == secondListen && server.listening == secondListen
    ensures server.listenerCloses == old(server.listenerCloses) + 1
    ensures server.settings == old(server.settings)
    ensures server.sentBytes == old(server.sentBytes) && server.receivedBytes == old(server.receivedBytes)
  {
    var first := server.StartSync(firstListen);
    server.Stop();
    success := server.StartSync(secondListen);
  }
}
