/**
 * Streaming the sensor report to the server: fread fills a buffer of
 * LENGTH bytes (4096 in one variant, 512 in the other) from the file, send
 * ships the bytes read, and the loop stops at end of file or at the first
 * send that fails. The file is modelled by its contents and a read
 * position; a read from a regular file returns as many bytes as are asked
 * for while that many remain.
 */
module FileStream {
  import opened CStd
  import opened Net

  /** The blocks successive fread(sdbuf, 1, length, fs) calls return, up to the first empty one. */
  function Chunks(file: seq<byte>, length: nat): (r: seq<seq<byte>>)
    requires length > 0
    ensures r == [] <==> file == []
    ensures |r| <= |file|
    decreases |file|
  {
    if file == [] then []
    else
      var n := Min(length, |file|);
      [file[..n]] + Chunks(file[n..], length)
  }

  function Concat(cs: seq<seq<byte>>): seq<byte> {
    if cs == [] then [] else cs[0] + Concat(cs[1..])
  }

  /** The blocks put back together are the file: nothing is lost, repeated or reordered. */
  lemma {:induction false} ChunksConcat(file: seq<byte>, length: nat)
    requires length > 0
    ensures Concat(Chunks(file, length)) == file
  {
    if file != [] {
      var n := Min(length, |file|);
      ChunksConcat(file[n..], length);
      assert Chunks(file, length)[1..] == Chunks(file[n..], length);
      assert file[..n] + file[n..] == file;
    }
  }

  /** Every block holds 1 to length bytes, and every block but the last is full. */
  lemma {:induction false} ChunksSized(file: seq<byte>, length: nat)
    requires length > 0
    ensures var cs := Chunks(file, length);
            forall i :: 0 <= i < |cs| ==> 1 <= |cs[i]| <= length && (i < |cs| - 1 ==> |cs[i]| == length)
  {
    if file != [] {
      var n := Min(length, |file|);
      ChunksSized(file[n..], length);
      var cs := Chunks(file, length);
      assert cs[1..] == Chunks(file[n..], length);
      forall i | 0 <= i < |cs|
        ensures 1 <= |cs[i]| <= length && (i < |cs| - 1 ==> |cs[i]| == length)
      {
        if i > 0 {
          assert cs[i] == cs[1..][i - 1];
        } else if |cs| > 1 {
          assert file[n..] != [];
        }
      }
    }
  }

  /** Send each block in turn; after the first failed send, stop. */
  function SendChunks(w: Wire, cs: seq<seq<byte>>): Wire
    decreases |cs|
  {
    if cs == [] then w
    else
      var (ok, w1) := SendOn(w, Chunk(cs[0]));
      if ok then SendChunks(w1, cs[1..]) else w1
  }

  /** How many of n sends go through before the first failure. */
  function Accepted(outcomes: seq<bool>, n: nat): (k: nat)
    ensures k <= n
  {
    if n == 0 || (outcomes != [] && !outcomes[0]) then 0
    else Accepted(if outcomes == [] then [] else outcomes[1..], n - 1)  + 1
  }

  /** No failure is scheduled among the next n sends. */
  predicate NoFailure(outcomes: seq<bool>, n: nat) {
    forall i :: 0 <= i < n && i < |outcomes| ==> outcomes[i]
  }

  lemma {:induction false} NoFailureAcceptsAll(outcomes: seq<bool>, n: nat)
    requires NoFailure(outcomes, n)
    ensures Accepted(outcomes, n) == n
  {
    if n > 0 {
      var rest := if outcomes == [] then [] else outcomes[1..];
      assert NoFailure(rest, n - 1) by {
        forall i | 0 <= i < n - 1 && i < |rest| ensures rest[i] {
          assert rest[i] == outcomes[i + 1];
        }
      }
      NoFailureAcceptsAll(rest, n - 1);
    }
  }

  function ChunkPackets(cs: seq<seq<byte>>): (ps: seq<Packet>)
    ensures |ps| == |cs|
  {
    if cs == [] then [] else [Chunk(cs[0])] + ChunkPackets(cs[1..])
  }

  /**
   * What the server receives: the blocks before the first failed send, in
   * order. The socket is a byte stream, so the log records send calls, not
   * boundaries the server could see.
   */
  lemma {:induction false} SendChunksDelivers(w: Wire, cs: seq<seq<byte>>)
    ensures Delivers(w, cs)
    decreases |cs|
  {
    if cs == [] {
      assert cs[..0] == [];
    } else if w.outcomes == [] || w.outcomes[0] {
      SendChunksDelivers(SendOn(w, Chunk(cs[0])).1, cs[1..]);
      DeliversCons(w, cs);
    } else {
      DeliversFail(w, cs);
    }
  }

  predicate Delivers(w: Wire, cs: seq<seq<byte>>) {
    var w' := SendChunks(w, cs);
    w'.inbound == w.inbound && w'.open == w.open &&
    w'.sent == w.sent + ChunkPackets(cs[..Accepted(w.outcomes, |cs|)])
  }

  lemma DeliversCons(w: Wire, cs: seq<seq<byte>>)
    requires cs != [] && (w.outcomes == [] || w.outcomes[0])
    requires Delivers(SendOn(w, Chunk(cs[0])).1, cs[1..])
    ensures Delivers(w, cs)
  {
    var w1 := SendOn(w, Chunk(cs[0])).1;
    var k := Accepted(w1.outcomes, |cs| - 1);
    AcceptedStep(w, Chunk(cs[0]), |cs| - 1);
    SendChunksCons(w, cs);
    PacketsCons(cs, k);
    SeqAssoc(w.sent, [Chunk(cs[0])], ChunkPackets(cs[1..][..k]));
  }

  /** A first send that goes through is followed by the rest of the blocks. */
  lemma SendChunksCons(w: Wire, cs: seq<seq<byte>>)
    requires cs != [] && (w.outcomes == [] || w.outcomes[0])
    ensures SendChunks(w, cs) == SendChunks(SendOn(w, Chunk(cs[0])).1, cs[1..])
  {
  }

  lemma DeliversFail(w: Wire, cs: seq<seq<byte>>)
    requires cs != [] && !(w.outcomes == [] || w.outcomes[0])
    ensures Delivers(w, cs)
  {
    AcceptedStep(w, Chunk(cs[0]), |cs| - 1);
    assert cs[..0] == [];
    assert ChunkPackets(cs[..0]) == [];
  }

  /** One send: a success counts towards the accepted prefix, a failure ends it. */
  lemma AcceptedStep(w: Wire, p: Packet, n: nat)
    ensures var (ok, w1) := SendOn(w, p);
            Accepted(w.outcomes, n + 1) == if ok then Accepted(w1.outcomes, n) + 1 else 0
  {
  }

  lemma PacketsCons(cs: seq<seq<byte>>, k: nat)
    requires k < |cs|
    ensures ChunkPackets(cs[..k + 1]) == [Chunk(cs[0])] + ChunkPackets(cs[1..][..k])
  {
    assert cs[..k + 1][1..] == cs[1..][..k];
  }

  lemma {:induction false} ConcatPrefix(cs: seq<seq<byte>>, k: nat)
    requires k <= |cs|
    ensures Concat(cs[..k]) <= Concat(cs)
  {
    if k > 0 {
      assert cs[..k][1..] == cs[1..][..k - 1];
      ConcatPrefix(cs[1..], k - 1);
    }
  }

  /**
   * Streaming a file sends blocks of 1 to length bytes whose concatenation
   * is a prefix of the file, and the whole file when no send fails; the
   * rest of the connection is untouched.
   */
  lemma StreamedPrefix(w: Wire, file: seq<byte>, length: nat)
    requires length > 0
    ensures var cs := Chunks(file, length);
            var k := Accepted(w.outcomes, |cs|);
            SendChunks(w, cs).sent == w.sent + ChunkPackets(cs[..k]) &&
            (forall i :: 0 <= i < k ==> 1 <= |cs[i]| <= length) &&
            Concat(cs[..k]) <= file &&
            (NoFailure(w.outcomes, |cs|) ==> Concat(cs[..k]) == file)
  {
    var cs := Chunks(file, length);
    var k := Accepted(w.outcomes, |cs|);
    SendChunksDelivers(w, cs);
    ChunksSized(file, length);
    ChunksConcat(file, length);
    ConcatPrefix(cs, k);
    if NoFailure(w.outcomes, |cs|) {
      NoFailureAcceptsAll(w.outcomes, |cs|);
      assert cs[..k] == cs;
    }
  }

  /** fread(buf, 1, buf.Length, fs) from read position pos: fills buf in place, returns the count. */
  method Fread(buf: array<byte>, file: seq<byte>, pos: nat) returns (n: nat)
    requires pos <= |file|
    modifies buf
    ensures n == Min(buf.Length, |file| - pos)
    ensures buf[..n] == file[pos..pos + n]
    ensures buf[n..] == old(buf[n..])
  {
    n := Min(buf.Length, |file| - pos);
    for i := 0 to n
      invariant forall j :: 0 <= j < i ==> buf[j] == file[pos + j]
      invariant forall j :: n <= j < buf.Length ==> buf[j] == old(buf[j])
    {
      buf[i] := file[pos + i];
    }
  }

  /** bzero(buf, buf.Length) */
  method Bzero(buf: array<byte>)
    modifies buf
    ensures forall i :: 0 <= i < buf.Length ==> buf[i] == 0
  {
    for i := 0 to buf.Length
      invariant forall j :: 0 <= j < i ==> buf[j] == 0
    {
      buf[i] := 0;
    }
  }

  lemma ChunksStep(file: seq<byte>, pos: nat, length: nat)
    requires length > 0 && pos < |file|
    ensures var n := Min(length, |file| - pos);
            Chunks(file[pos..], length) == [file[pos..pos + n]] + Chunks(file[pos + n..], length)
  {
    var n := Min(length, |file| - pos);
    assert file[pos..][..n] == file[pos..pos + n];
    assert file[pos..][n..] == file[pos + n..];
  }

  /** The send loop over an opened report file. */
  method StreamFile(sock: Socket, file: seq<byte>, length: nat)
    requires length > 0
    modifies sock
    ensures sock.State() == SendChunks(old(sock.State()), Chunks(file, length))
  {
    var sdbuf := new byte[length];
    Bzero(sdbuf);
    var pos := 0;
    while true
      invariant 0 <= pos <= |file| && sdbuf.Length == length
      invariant SendChunks(sock.State(), Chunks(file[pos..], length)) == SendChunks(old(sock.State()), Chunks(file, length))
      decreases |file| - pos
    {
      var n := Fread(sdbuf, file, pos);
      if n == 0 {
        assert file[pos..] == [];
        break;
      }
      var ok := SendBlock(sock, sdbuf[..n], file, pos, length);
      pos := pos + n;
      if !ok {
        break;
      }
      Bzero(sdbuf);
    }
  }

  /** One send of the loop: the block read at pos goes out in one send call. */
  method SendBlock(sock: Socket, block: seq<byte>, file: seq<byte>, pos: nat, length: nat) returns (ok: bool)
    requires length > 0 && pos < |file| && block == file[pos..pos + Min(length, |file| - pos)]
    modifies sock
    ensures SendChunks(old(sock.State()), Chunks(file[pos..], length)) ==
            if ok then SendChunks(sock.State(), Chunks(file[pos + |block|..], length)) else sock.State()
  {
    ghost var w := sock.State();
    Advance(w, file, pos, length);
    assert pos + |block| == pos + Min(length, |file| - pos);
    ok := sock.Send(Chunk(block));
    assert (ok, sock.State()) == SendOn(w, Chunk(block));
  }

  /** Sending the block at pos: on success the blocks after it follow, on failure nothing more is sent. */
  lemma Advance(w: Wire, file: seq<byte>, pos: nat, length: nat)
    requires length > 0 && pos < |file|
    ensures var n := Min(length, |file| - pos);
            var (ok, w1) := SendOn(w, Chunk(file[pos..pos + n]));
            SendChunks(w, Chunks(file[pos..], length)) == if ok then SendChunks(w1, Chunks(file[pos + n..], length)) else w1
  {
    var n := Min(length, |file| - pos);
    ChunksStep(file, pos, length);
    SendStep(w, file[pos..pos + n], Chunks(file[pos + n..], length));
  }

  lemma SendStep(w: Wire, c: seq<byte>, rest: seq<seq<byte>>)
    ensures var (ok, w1) := SendOn(w, Chunk(c));
            SendChunks(w, [c] + rest) == if ok then SendChunks(w1, rest) else w1
  {
    assert ([c] + rest)[0] == c;
    assert ([c] + rest)[1..] == rest;
  }
}
