/** Length-prefixed messages on a byte stream: a 4-byte big-endian length, then the payload. */
module Framing {
  import opened Primitives

  const STREAM_LIMIT := 8 * 1024 * 1024
  const HEADER_LIMIT := 0x1_0000_0000

  /** msgpack on the messages that are sent. */
  datatype Codec<!T> = Codec(pack: T -> Bytes, unpack: Bytes -> Option<T>)

  ghost predicate UnpackUndoesPack<T(!new)>(c: Codec<T>) {
    forall m :: c.unpack(c.pack(m)) == Some(m)
  }

  /** `n.to_bytes(k, 'big')`: the last k base-256 digits. */
  function ToBytes(n: nat, k: nat): (b: Bytes)
    ensures |b| == k
  {
    if k == 0 then [] else ToBytes(n / 0x100, k - 1) + [(n % 0x100) as byte]
  }

  /** `int.from_bytes(b, 'big')`. */
  function FromBytes(b: Bytes): nat {
    if b == [] then 0 else FromBytes(b[..|b| - 1]) * 0x100 + b[|b| - 1] as int
  }

  function Capacity(k: nat): nat {
    if k == 0 then 1 else 0x100 * Capacity(k - 1)
  }

  function Header(n: nat): (h: Bytes)
    ensures |h| == 4
  {
    ToBytes(n, 4)
  }

  function FromHeader(h: Bytes): nat
    requires |h| == 4
  {
    FromBytes(h)
  }

  lemma {:induction false} ToBytesDecodes(n: nat, k: nat)
    requires n < Capacity(k)
    ensures FromBytes(ToBytes(n, k)) == n
  {
    if k > 0 {
      ToBytesDecodes(n / 0x100, k - 1);
      assert ToBytes(n, k)[..k - 1] == ToBytes(n / 0x100, k - 1);
    }
  }

  lemma {:induction false} FromBytesEncodes(b: Bytes)
    ensures ToBytes(FromBytes(b), |b|) == b
  {
    if b != [] {
      var most, last := b[..|b| - 1], b[|b| - 1] as int;
      FromBytesEncodes(most);
      assert FromBytes(b) / 0x100 == FromBytes(most) && FromBytes(b) % 0x100 == last;
      assert b == most + [b[|b| - 1]];
    }
  }

  /** Four bytes are the header of exactly the number they decode to. */
  lemma HeaderRoundTrip(n: nat, h: Bytes)
    requires n < HEADER_LIMIT && |h| == 4
    ensures h == Header(n) <==> FromHeader(h) == n
  {
    assert Capacity(4) == HEADER_LIMIT;
    ToBytesDecodes(n, 4);
    FromBytesEncodes(h);
  }

  /** The most significant byte comes first. */
  lemma HeaderIsBigEndian(n: nat, h: Bytes)
    requires |h| == 4
    ensures FromHeader(h) == 16777216 * h[0] as int + 65536 * h[1] as int + 256 * h[2] as int + h[3] as int
    ensures n < 4294967296 ==>
              var b := Header(n);
              n == 16777216 * b[0] as int + 65536 * b[1] as int + 256 * b[2] as int + b[3] as int
  {
    BytesAreBigEndian(h);
    BytesAreBigEndian(Header(n));
    if n < HEADER_LIMIT {
      HeaderRoundTrip(n, Header(n));
    }
  }

  lemma BytesAreBigEndian(h: Bytes)
    requires |h| == 4
    ensures FromBytes(h) == 16777216 * h[0] as int + 65536 * h[1] as int + 256 * h[2] as int + h[3] as int
  {
    assert h[..3][..2] == h[..2] && h[..2][..1] == h[..1] && h[..1][..0] == [];
    assert FromBytes(h[..1]) == h[0] as int;
    assert FromBytes(h[..2]) == 256 * h[0] as int + h[1] as int;
    assert FromBytes(h[..3]) == 65536 * h[0] as int + 256 * h[1] as int + h[2] as int;
  }

  /** A payload whose length does not fit the header raises before anything is written. */
  predicate Sendable<T>(c: Codec<T>, m: T) {
    |c.pack(m)| < HEADER_LIMIT
  }

  function Frame<T>(c: Codec<T>, m: T): Bytes
    requires Sendable(c, m)
  {
    Header(|c.pack(m)|) + c.pack(m)
  }

  ghost predicate AllSendable<T>(c: Codec<T>, msgs: seq<T>) {
    forall i :: 0 <= i < |msgs| ==> Sendable(c, msgs[i])
  }

  function Stream<T>(c: Codec<T>, msgs: seq<T>): Bytes
    requires AllSendable(c, msgs)
  {
    if msgs == [] then [] else Frame(c, msgs[0]) + Stream(c, msgs[1..])
  }

  /** One `receive`: the message and the unread bytes, or nothing on any error. */
  function ReceiveOne<T>(c: Codec<T>, stream: Bytes): Option<(T, Bytes)> {
    if |stream| < 4 then None
    else
      var length := FromHeader(stream[..4]);
      if length > STREAM_LIMIT || |stream| < 4 + length then None
      else
        match c.unpack(stream[4..4 + length])
        case Some(m) => Some((m, stream[4 + length..]))
        case None => None
  }

  /** The message loop: it ends at the first receive that yields nothing. */
  function ReceiveAll<T>(c: Codec<T>, stream: Bytes): seq<T>
    decreases |stream|
  {
    match ReceiveOne(c, stream)
    case Some((m, rest)) => [m] + ReceiveAll(c, rest)
    case None => []
  }

  class PeerConnection<T> {
    const codec: Codec<T>
    var reader: Bytes
    var writer: Bytes

    constructor (codec: Codec<T>, reader: Bytes)
      ensures this.codec == codec && this.reader == reader && writer == []
    {
      this.codec, this.reader, writer := codec, reader, [];
    }

    method Send(m: T) returns (sent: bool)
      modifies this`writer
      ensures sent <==> Sendable(codec, m)
      ensures writer == if sent then old(writer) + Frame(codec, m) else old(writer)
    {
      var payload := codec.pack(m);
      if |payload| >= HEADER_LIMIT {
        return false;
      }
      var header := Header(|payload|);
      writer := writer + (header + payload);
      return true;
    }

    method ReadExactly(n: nat) returns (data: Option<Bytes>)
      modifies this`reader
      ensures data == if n <= |old(reader)| then Some(old(reader)[..n]) else None
      ensures n <= |old(reader)| ==> reader == old(reader)[n..]
    {
      if |reader| < n {
        reader := [];
        return None;
      }
      data := Some(reader[..n]);
      reader := reader[n..];
    }

    method Receive() returns (m: Option<T>)
      modifies this`reader
      ensures m.Some? <==> ReceiveOne(codec, old(reader)).Some?
      ensures m.Some? ==> ReceiveOne(codec, old(reader)) == Some((m.value, reader))
    {
      var header := ReadExactly(4);
      if header == None {
        return None;
      }
      var length := FromHeader(header.value);
      if length > STREAM_LIMIT {
        return None;
      }
      var payload := ReadExactly(length);
      if payload == None {
        return None;
      }
      assert payload.value == old(reader)[4..4 + length] && reader == old(reader)[4 + length..];
      return codec.unpack(payload.value);
    }

    method MessageLoop() returns (handled: seq<T>)
      modifies this`reader
      ensures handled == ReceiveAll(codec, old(reader))
    {
      handled := [];
      var open := true;
      while open
        invariant if open then handled + ReceiveAll(codec, reader) == ReceiveAll(codec, old(reader))
                  else handled == ReceiveAll(codec, old(reader))
        decreases open, |reader|
      {
        ghost var before := reader;
        var m := Receive();
        if m == None {
          assert handled + [] == handled;
          open := false;
        } else {
          assert handled + ([m.value] + ReceiveAll(codec, reader)) == (handled + [m.value]) + ReceiveAll(codec, reader);
          handled := handled + [m.value];
        }
      }
    }
  }

  // ---- Round trip ----

  /** How many messages a receiver gets out of the first t bytes: whole frames, up to the
      first payload over the limit. */
  function Arrivals<T>(c: Codec<T>, msgs: seq<T>, t: nat): nat
    requires AllSendable(c, msgs)
    decreases |msgs|
  {
    if msgs == [] || |c.pack(msgs[0])| > STREAM_LIMIT || |Frame(c, msgs[0])| > t then 0
    else 1 + Arrivals(c, msgs[1..], t - |Frame(c, msgs[0])|)
  }

  lemma FrameHeads<T(!new)>(c: Codec<T>, m: T, stream: Bytes)
    requires Sendable(c, m) && UnpackUndoesPack(c) && |c.pack(m)| <= STREAM_LIMIT
    ensures ReceiveOne(c, Frame(c, m) + stream) == Some((m, stream))
  {
    var f := Frame(c, m) + stream;
    HeaderRoundTrip(|c.pack(m)|, Header(|c.pack(m)|));
    assert f[..4] == Header(|c.pack(m)|);
    assert f[4..4 + |c.pack(m)|] == c.pack(m) && f[4 + |c.pack(m)|..] == stream;
  }

  /** An oversized payload, or a frame cut short, ends the loop. */
  lemma BrokenFrameStops<T>(c: Codec<T>, m: T, stream: Bytes, t: nat)
    requires Sendable(c, m) && t <= |Frame(c, m) + stream|
    requires |c.pack(m)| > STREAM_LIMIT || |Frame(c, m)| > t
    ensures ReceiveOne(c, (Frame(c, m) + stream)[..t]) == None
  {
    var f := (Frame(c, m) + stream)[..t];
    HeaderRoundTrip(|c.pack(m)|, Header(|c.pack(m)|));
    if t >= 4 {
      assert f[..4] == Header(|c.pack(m)|);
    }
  }

  lemma CutAfter(a: Bytes, b: Bytes, t: nat)
    requires |a| <= t <= |a + b|
    ensures (a + b)[..t] == a + b[..t - |a|]
  {
  }

  lemma PrefixOfCons<T>(msgs: seq<T>, n: nat)
    requires n + 1 <= |msgs|
    ensures msgs[..n + 1] == [msgs[0]] + msgs[1..][..n]
  {
  }

  /** However the stream is cut, the loop returns exactly the messages that arrived. */
  lemma {:induction false} TruncatedStreamYieldsWholeFrames<T(!new)>(c: Codec<T>, msgs: seq<T>, t: nat)
    requires UnpackUndoesPack(c) && AllSendable(c, msgs) && t <= |Stream(c, msgs)|
    ensures Arrivals(c, msgs, t) <= |msgs|
    ensures ReceiveAll(c, Stream(c, msgs)[..t]) == msgs[..Arrivals(c, msgs, t)]
    decreases |msgs|
  {
    if msgs != [] {
      var frame, rest := Frame(c, msgs[0]), Stream(c, msgs[1..]);
      if |c.pack(msgs[0])| > STREAM_LIMIT || |frame| > t {
        BrokenFrameStops(c, msgs[0], rest, t);
      } else {
        CutAfter(frame, rest, t);
        FrameHeads(c, msgs[0], rest[..t - |frame|]);
        TruncatedStreamYieldsWholeFrames(c, msgs[1..], t - |frame|);
        PrefixOfCons(msgs, Arrivals(c, msgs[1..], t - |frame|));
      }
    }
  }

  /** Without oversized payloads the arrivals are the frames that fit into t bytes: all of
      them do, and one more would not. */
  lemma {:induction false} ArrivalsAreWholeFrames<T>(c: Codec<T>, msgs: seq<T>, t: nat)
    requires AllSendable(c, msgs) && forall i :: 0 <= i < |msgs| ==> |c.pack(msgs[i])| <= STREAM_LIMIT
    ensures var n := Arrivals(c, msgs, t);
            n <= |msgs| && |Stream(c, msgs[..n])| <= t && (n < |msgs| ==> |Stream(c, msgs[..n + 1])| > t)
    decreases |msgs|
  {
    var n := Arrivals(c, msgs, t);
    if n > 0 {
      ArrivalsAreWholeFrames(c, msgs[1..], t - |Frame(c, msgs[0])|);
      assert msgs[..n][1..] == msgs[1..][..n - 1];
      if n < |msgs| {
        assert msgs[..n + 1][1..] == msgs[1..][..n];
      }
    } else if msgs != [] {
      assert msgs[..1][1..] == [];
    }
  }

  /** The whole stream gives back exactly the messages sent if and only if no payload is over
      the limit that only the receiver enforces. */
  lemma {:induction false} StreamRoundTrip<T(!new)>(c: Codec<T>, msgs: seq<T>)
    requires UnpackUndoesPack(c) && AllSendable(c, msgs)
    ensures ReceiveAll(c, Stream(c, msgs)) == msgs <==>
            forall i :: 0 <= i < |msgs| ==> |c.pack(msgs[i])| <= 8388608
    decreases |msgs|
  {
    if msgs != [] {
      var rest := Stream(c, msgs[1..]);
      if |c.pack(msgs[0])| > STREAM_LIMIT {
        BrokenFrameStops(c, msgs[0], rest, |Stream(c, msgs)|);
        assert Stream(c, msgs)[..|Stream(c, msgs)|] == Stream(c, msgs);
      } else {
        FrameHeads(c, msgs[0], rest);
        StreamRoundTrip(c, msgs[1..]);
        assert msgs == [msgs[0]] + msgs[1..];
        assert ReceiveAll(c, Stream(c, msgs)) == [msgs[0]] + ReceiveAll(c, rest);
        assert ([msgs[0]] + ReceiveAll(c, rest))[1..] == ReceiveAll(c, rest);
      }
    }
  }
}
