/** Length-prefixed framing over a byte stream that the network may cut into pieces anywhere. */
module Framing {

  type Byte = n: int | 0 <= n < 256

  type Bytes = seq<Byte>

  const LIMIT := 0x1_0000_0000

  datatype Result<+T> = Ok(value: T) | ConnectionClosed

  /** struct ">I": four bytes, most significant first. */
  function Pack(n: nat): (h: Bytes)
    requires n < LIMIT
    ensures |h| == 4
    ensures n == (h[0] as int) * 0x100_0000 + (h[1] as int) * 0x1_0000 + (h[2] as int) * 0x100 + h[3]
  {
    Digits(n);
    [n / 0x100_0000, n / 0x1_0000 % 0x100, n / 0x100 % 0x100, n % 0x100]
  }

  lemma Digits(n: nat)
    ensures n / 0x1_0000 == n / 0x100 / 0x100 && n / 0x100_0000 == n / 0x1_0000 / 0x100
  {
  }

  function Unpack(h: Bytes): (n: nat)
    requires |h| == 4
    ensures n < LIMIT
  {
    (((h[0] as int) * 0x100 + h[1]) * 0x100 + h[2]) * 0x100 + h[3]
  }

  lemma UnpackPack(n: nat)
    requires n < LIMIT
    ensures Unpack(Pack(n)) == n
  {
    assert n / 0x1_0000 == n / 0x100 / 0x100;
    assert n / 0x100_0000 == n / 0x1_0000 / 0x100;
  }

  lemma PackUnpack(h: Bytes)
    requires |h| == 4
    ensures Pack(Unpack(h)) == h
  {
    var n := Unpack(h);
    assert n % 0x100 == h[3] && n / 0x100 == ((h[0] as int) * 0x100 + h[1]) * 0x100 + h[2];
    assert n / 0x1_0000 == n / 0x100 / 0x100;
    assert n / 0x100_0000 == n / 0x1_0000 / 0x100;
  }

  /** What `send_message` puts on the stream for one encoded payload. */
  function Frame(payload: Bytes): Bytes
    requires |payload| < LIMIT
  {
    Pack(|payload|) + payload
  }

  predicate Sendable(payloads: seq<Bytes>) {
    forall k :: 0 <= k < |payloads| ==> |payloads[k]| < LIMIT
  }

  function Frames(payloads: seq<Bytes>): Bytes
    requires Sendable(payloads)
  {
    if payloads == [] then [] else Frame(payloads[0]) + Frames(payloads[1..])
  }

  function Concat(chunks: seq<Bytes>): Bytes {
    if chunks == [] then [] else chunks[0] + Concat(chunks[1..])
  }

  /** What reading one message from a stream gives and leaves. */
  function Parse(stream: Bytes): (Result<Bytes>, Bytes) {
    if |stream| < 4 then (ConnectionClosed, [])
    else
      var n := Unpack(stream[..4]);
      if |stream| < 4 + n then (ConnectionClosed, [])
      else (Ok(stream[4..4 + n]), stream[4 + n..])
  }

  /** A socket. The bytes the peer sends before it closes arrive in the pieces `chunks`; `sent` is what was
  written to the peer. */
  class Socket {
    var chunks: seq<Bytes>
    var sent: Bytes

    predicate Valid()
      reads this
    {
      forall k :: 0 <= k < |chunks| ==> chunks[k] != []
    }

    function Incoming(): Bytes
      reads this
    {
      Concat(chunks)
    }

    constructor (chunks: seq<Bytes>)
      requires forall k :: 0 <= k < |chunks| ==> chunks[k] != []
      ensures Valid() && this.chunks == chunks && sent == []
    {
      this.chunks, sent := chunks, [];
    }

    /** `sock.recv(n)`: at most n bytes and at least one, from one piece; nothing at the end of the stream. */
    method Recv(n: nat) returns (chunk: Bytes)
      requires Valid() && n > 0
      modifies this`chunks
      ensures Valid() && old(Incoming()) == chunk + Incoming() && |chunk| <= n
      ensures chunk == [] <==> old(Incoming()) == []
    {
      if chunks == [] {
        return [];
      }
      var first := chunks[0];
      if |first| <= n {
        chunk, chunks := first, chunks[1..];
      } else {
        chunk := first[..n];
        chunks := [first[n..]] + chunks[1..];
        assert first == chunk + first[n..];
      }
    }

    /** `_recv_exactly`: exactly the next n bytes, however they are cut, or ConnectionClosed if there are fewer. */
    method RecvExactly(n: nat) returns (r: Result<Bytes>)
      requires Valid()
      modifies this`chunks
      ensures Valid()
      ensures if |old(Incoming())| >= n
              then r == Ok(old(Incoming())[..n]) && Incoming() == old(Incoming())[n..]
              else r == ConnectionClosed && Incoming() == []
    {
      var data: Bytes := [];
      while |data| < n
        invariant Valid() && |data| <= n
        invariant data + Incoming() == old(Incoming())
        decreases n - |data|
      {
        var chunk := Recv(n - |data|);
        if chunk == [] {
          assert data + [] == data;
          return ConnectionClosed;
        }
        assert data + (chunk + Incoming()) == data + chunk + Incoming();
        data := data + chunk;
      }
      r := Ok(data);
    }

    method RecvMessage() returns (r: Result<Bytes>)
      requires Valid()
      modifies this`chunks
      ensures Valid() && (r, Incoming()) == Parse(old(Incoming()))
    {
      var header := RecvExactly(4);
      if header.ConnectionClosed? {
        return ConnectionClosed;
      }
      var length := Unpack(header.value);
      ghost var rest := Incoming();
      r := RecvExactly(length);
      if |rest| >= length {
        assert rest[..length] == old(Incoming())[4..4 + length];
        assert rest[length..] == old(Incoming())[4 + length..];
      }
    }

    /** A payload that is too long for the header raises, and nothing is sent. */
    method SendMessage(payload: Bytes) returns (ok: bool)
      modifies this`sent
      ensures ok == (|payload| < 0x1_0000_0000)
      ensures sent == old(sent) + if |payload| < LIMIT then Frame(payload) else []
      ensures ok ==> |sent| == |old(sent)| + 4 + |payload| && sent[..|old(sent)|] == old(sent)
      ensures ok ==> sent[|old(sent)| + 4..] == payload
      ensures ok ==>
        var h := sent[|old(sent)|..];
        |payload| == (h[0] as int) * 0x100_0000 + (h[1] as int) * 0x1_0000 + (h[2] as int) * 0x100 + h[3]
    {
      if |payload| >= LIMIT {
        return false;
      }
      ghost var before := sent;
      sent := sent + (Pack(|payload|) + payload);
      assert sent[|before|..] == Pack(|payload|) + payload;
      ok := true;
    }

    /** Repeated `recv_message`, until the first error. */
    method RecvAll(count: nat) returns (messages: seq<Bytes>, ok: bool)
      requires Valid()
      modifies this`chunks
      ensures Valid() && (messages, ok, Incoming()) == ParseMany(old(Incoming()), count)
    {
      messages, ok := [], true;
      var k := 0;
      assert messages + ParseMany(Incoming(), count).0 == ParseMany(Incoming(), count).0;
      while k < count
        invariant Valid() && k <= count
        invariant ok ==> ParseMany(old(Incoming()), count) ==
                         (var rest := ParseMany(Incoming(), count - k); (messages + rest.0, rest.1, rest.2))
        invariant ok
      {
        var r := RecvMessage();
        if r.ConnectionClosed? {
          assert messages + [] == messages;
          return messages, false;
        }
        assert forall tail: seq<Bytes> :: messages + ([r.value] + tail) == messages + [r.value] + tail;
        messages := messages + [r.value];
        k := k + 1;
      }
      assert messages + [] == messages;
    }
  }

  function ParseMany(stream: Bytes, count: nat): (seq<Bytes>, bool, Bytes) {
    if count == 0 then ([], true, stream)
    else
      var (r, rest) := Parse(stream);
      if r.ConnectionClosed? then ([], false, rest)
      else
        var (ms, ok, left) := ParseMany(rest, count - 1);
        ([r.value] + ms, ok, left)
  }

  /** One frame in front of anything is read back exactly, and the rest is left untouched. */
  lemma ParseFrame(payload: Bytes, rest: Bytes)
    requires |payload| < LIMIT
    ensures Parse(Frame(payload) + rest) == (Ok(payload), rest)
  {
    var stream := Frame(payload) + rest;
    UnpackPack(|payload|);
    assert stream[..4] == Pack(|payload|);
    assert stream[4..4 + |payload|] == payload;
    assert stream[4 + |payload|..] == rest;
  }

  /** A message is only ever returned for a complete frame: nothing truncated, nothing made up. */
  lemma ParsedIsFrame(stream: Bytes)
    ensures var (r, rest) := Parse(stream);
            (r.Ok? ==> |r.value| < LIMIT && stream == Frame(r.value) + rest) && (r.ConnectionClosed? ==> rest == [])
  {
    if |stream| >= 4 {
      PackUnpack(stream[..4]);
      var n := Unpack(stream[..4]);
      if |stream| >= 4 + n {
        assert stream == stream[..4] + stream[4..4 + n] + stream[4 + n..];
      }
    }
  }

  /** A stream that ends inside a frame raises. */
  lemma CutFrameRaises(payload: Bytes, k: nat)
    requires |payload| < LIMIT && k < |Frame(payload)|
    ensures Parse(Frame(payload)[..k]) == (ConnectionClosed, [])
  {
    if k >= 4 {
      UnpackPack(|payload|);
      assert Frame(payload)[..k][..4] == Pack(|payload|);
    }
  }

  /** The framing round trip: for every list of payloads, whatever follows them on the stream and however the
  stream is cut into pieces (the pieces are no argument here: RecvAll depends on their concatenation only),
  reading as many messages as were sent gives exactly the payloads and leaves exactly the rest. */
  lemma {:induction false} ParseFrames(payloads: seq<Bytes>, rest: Bytes)
    requires Sendable(payloads)
    ensures ParseMany(Frames(payloads) + rest, |payloads|) == (payloads, true, rest)
  {
    if payloads == [] {
      assert Frames(payloads) + rest == rest;
    } else {
      var tail := Frames(payloads[1..]) + rest;
      assert Frames(payloads) + rest == Frame(payloads[0]) + tail;
      ParseFrame(payloads[0], tail);
      ParseFrames(payloads[1..], rest);
      assert [payloads[0]] + payloads[1..] == payloads;
    }
  }

  /** Complete frames followed by a cut one: the complete ones are returned, then ConnectionClosed. */
  lemma {:induction false} CutStream(payloads: seq<Bytes>, last: Bytes, k: nat)
    requires Sendable(payloads) && |last| < LIMIT && k < |Frame(last)|
    ensures ParseMany(Frames(payloads) + Frame(last)[..k], |payloads| + 1) == (payloads, false, [])
  {
    if payloads == [] {
      assert Frames(payloads) + Frame(last)[..k] == Frame(last)[..k];
      CutFrameRaises(last, k);
    } else {
      var tail := Frames(payloads[1..]) + Frame(last)[..k];
      assert Frames(payloads) + Frame(last)[..k] == Frame(payloads[0]) + tail;
      ParseFrame(payloads[0], tail);
      CutStream(payloads[1..], last, k);
      assert [payloads[0]] + payloads[1..] == payloads;
    }
  }

  /** Two peers: what one sends, the other receives, whatever the pieces. */
  method Exchange(payloads: seq<Bytes>, rest: Bytes, chunks: seq<Bytes>) returns (received: seq<Bytes>)
    requires Sendable(payloads) && (forall k :: 0 <= k < |chunks| ==> chunks[k] != [])
    requires Concat(chunks) == Frames(payloads) + rest
    ensures received == payloads
  {
    var sock := new Socket(chunks);
    var ok;
    ParseFrames(payloads, rest);
    received, ok := sock.RecvAll(|payloads|);
  }
}
