/** The worker's side of the connection: each call sends one request and reads one reply off the byte stream. */
module Clients {
  import opened Workers
  import opened Params
  import opened Framing

  datatype Message =
    | PullWeights(worker: Id)
    | PushGradients(worker: Id, step: nat, gradients: Params)
    | Heartbeat(worker: Id, reward: real, metrics: map<string, real>)
    | WeightsResponse(weights: Params)
    | Acknowledged(globalStep: nat)
    | HeartbeatAck

  /** How messages become bytes. */
  datatype Codec = Codec(encode: Message -> Bytes, decode: Bytes -> Message)

  /** What is assumed of the encoding: it can be undone, and a message fits a frame. */
  ghost predicate Faithful(c: Codec) {
    forall m :: |c.encode(m)| < LIMIT && c.decode(c.encode(m)) == m
  }

  /** Closed: the stream ended before a whole reply. WrongType: the assert on the reply's type failed. */
  datatype Answer<+T> = Got(value: T) | Closed | WrongType

  /** The frames of a list of messages. */
  function Wire(c: Codec, ms: seq<Message>): Bytes
    requires Faithful(c)
  {
    if ms == [] then [] else Frame(c.encode(ms[0])) + Wire(c, ms[1..])
  }

  lemma {:induction false} WireJoin(c: Codec, ms: seq<Message>, ns: seq<Message>)
    requires Faithful(c)
    ensures Wire(c, ms + ns) == Wire(c, ms) + Wire(c, ns)
  {
    hide Frame;
    if ms == [] {
      assert ms + ns == ns;
    } else {
      WireJoin(c, ms[1..], ns);
      assert (ms + ns)[0] == ms[0] && (ms + ns)[1..] == ms[1..] + ns;
      assert |c.encode(ms[0])| < LIMIT;
      hide Faithful;
      Regroup([], Frame(c.encode(ms[0])), Wire(c, ms[1..]), Wire(c, ns));
    }
  }

  lemma WireOne(c: Codec, m: Message)
    requires Faithful(c)
    ensures Wire(c, [m]) == Frame(c.encode(m))
  {
    assert [m][1..] == [] && Wire(c, []) == [];
  }

  /** What the next reply on a stream is taken for. */
  function NextReply(c: Codec, stream: Bytes): (Answer<Message>, Bytes) {
    var (r, rest) := Parse(stream);
    (if r.Ok? then Got(c.decode(r.value)) else Closed, rest)
  }

  /** The first message on the wire is what is read, and the rest stays. */
  lemma NextOfWire(c: Codec, ms: seq<Message>, rest: Bytes)
    requires Faithful(c) && ms != []
    ensures NextReply(c, Wire(c, ms) + rest) == (Got(ms[0]), Wire(c, ms[1..]) + rest)
  {
    assert Wire(c, ms) + rest == Frame(c.encode(ms[0])) + (Wire(c, ms[1..]) + rest);
    ParseFrame(c.encode(ms[0]), Wire(c, ms[1..]) + rest);
  }

  class ParameterServerClient {
    const codec: Codec
    const sock: Socket

    ghost predicate Valid()
      reads sock
    {
      sock.Valid() && Faithful(codec)
    }

    constructor (codec: Codec, sock: Socket)
      requires sock.Valid() && Faithful(codec)
      ensures Valid() && this.codec == codec && this.sock == sock
    {
      this.codec, this.sock := codec, sock;
    }

    /** Sends one request and reads one reply. */
    method Call(request: Message) returns (r: Answer<Message>)
      requires Valid()
      modifies sock
      ensures Valid() && sock.sent == old(sock.sent) + Frame(codec.encode(request))
      ensures (r, sock.Incoming()) == NextReply(codec, old(sock.Incoming()))
    {
      var _ := sock.SendMessage(codec.encode(request));
      var data := sock.RecvMessage();
      r := if data.Ok? then Got(codec.decode(data.value)) else Closed;
    }

    method Pull(worker: Id) returns (r: Answer<Params>)
      requires Valid()
      modifies sock
      ensures Valid() && sock.sent == old(sock.sent) + Frame(codec.encode(PullWeights(worker)))
      ensures var (reply, rest) := NextReply(codec, old(sock.Incoming()));
              && sock.Incoming() == rest
              && r == if !reply.Got? then Closed
                      else if reply.value.WeightsResponse? then Got(reply.value.weights) else WrongType
    {
      var reply := Call(PullWeights(worker));
      r := if reply.Closed? then Closed
           else if reply.value.WeightsResponse? then Got(reply.value.weights) else WrongType;
    }

    method Push(worker: Id, step: nat, grads: Params) returns (r: Answer<nat>)
      requires Valid()
      modifies sock
      ensures Valid() && sock.sent == old(sock.sent) + Frame(codec.encode(PushGradients(worker, step, grads)))
      ensures var (reply, rest) := NextReply(codec, old(sock.Incoming()));
              && sock.Incoming() == rest
              && r == if !reply.Got? then Closed
                      else if reply.value.Acknowledged? then Got(reply.value.globalStep) else WrongType
    {
      var reply := Call(PushGradients(worker, step, grads));
      r := if reply.Closed? then Closed
           else if reply.value.Acknowledged? then Got(reply.value.globalStep) else WrongType;
    }

    method Beat(worker: Id, reward: real, metrics: map<string, real>) returns (r: Answer<()>)
      requires Valid()
      modifies sock
      ensures Valid() && sock.sent == old(sock.sent) + Frame(codec.encode(Heartbeat(worker, reward, metrics)))
      ensures var (reply, rest) := NextReply(codec, old(sock.Incoming()));
              && sock.Incoming() == rest
              && r == if reply.Got? then (if reply.value.HeartbeatAck? then Got(()) else WrongType) else Closed
    {
      var reply := Call(Heartbeat(worker, reward, metrics));
      r := if reply.Closed? then Closed else if reply.value.HeartbeatAck? then Got(()) else WrongType;
    }

    /** The heartbeat, if one is due. */
    method MaybeBeat(worker: Id, beat: bool, reward: real, metrics: map<string, real>,
                     ghost later: seq<Message>, ghost rest: Bytes) returns (ok: bool)
      requires Valid() && sock.Incoming() == Wire(codec, BeatReplies(beat) + later) + rest
      modifies sock
      ensures Valid() && ok && sock.Incoming() == Wire(codec, later) + rest
      ensures sock.sent == old(sock.sent) + Wire(codec, if beat then [Heartbeat(worker, reward, metrics)] else [])
    {
      ok := true;
      if beat {
        assert (BeatReplies(beat) + later)[1..] == later;
        NextOfWire(codec, BeatReplies(beat) + later, rest);
        WireOne(codec, Heartbeat(worker, reward, metrics));
        var beaten := Beat(worker, reward, metrics);
        ok := beaten == Got(());
      } else {
        assert BeatReplies(beat) + later == later;
      }
    }

    /** One turn of the worker's main loop after training: push, heartbeat if one is due, pull. If the server's
    replies on the stream are an ACK, a heartbeat's answer if one was sent and weights, in this order and cut into
    pieces anywhere, the turn succeeds, returns those weights, consumes exactly those replies and has sent exactly
    the requests. */
    method Turn(worker: Id, step: nat, grads: Params, beat: bool, reward: real, metrics: map<string, real>,
                ghost ack: nat, ghost next: Params, ghost rest: Bytes) returns (r: Answer<Params>)
      requires Valid()
      requires sock.Incoming()
        == Wire(codec, [Acknowledged(ack)] + (BeatReplies(beat) + [WeightsResponse(next)])) + rest
      modifies sock
      ensures Valid() && r == Got(next) && sock.Incoming() == rest
      ensures sock.sent == old(sock.sent) + Wire(codec,
        [PushGradients(worker, step, grads)]
        + ((if beat then [Heartbeat(worker, reward, metrics)] else []) + [PullWeights(worker)]))
    {
      ghost var later := BeatReplies(beat) + [WeightsResponse(next)];
      ghost var beats := if beat then [Heartbeat(worker, reward, metrics)] else [];
      assert ([Acknowledged(ack)] + later)[1..] == later;
      NextOfWire(codec, [Acknowledged(ack)] + later, rest);
      LastOfWire(codec, WeightsResponse(next), rest);
      hide Wire, Faithful, NextReply, Frame, Concat, Parse;
      var pushed := Push(worker, step, grads);
      assert pushed == Got(ack);
      var _ := MaybeBeat(worker, beat, reward, metrics, [WeightsResponse(next)], rest);
      r := Pull(worker);
      RequestsWire(codec, PushGradients(worker, step, grads), beats, PullWeights(worker), old(sock.sent));
    }
  }

  lemma RequestsWire(c: Codec, first: Message, beats: seq<Message>, last: Message, before: Bytes)
    requires Faithful(c)
    ensures before + Frame(c.encode(first)) + Wire(c, beats) + Frame(c.encode(last))
      == before + Wire(c, [first] + (beats + [last]))
  {
    WireOne(c, first);
    WireOne(c, last);
    WireJoin(c, beats, [last]);
    WireJoin(c, [first], beats + [last]);
    hide Wire, Frame, Faithful;
    Regroup(before, Wire(c, [first]), Wire(c, beats), Wire(c, [last]));
  }

  lemma Regroup(a: Bytes, b: Bytes, c: Bytes, d: Bytes)
    ensures a + b + c + d == a + (b + (c + d)) && b + c + d == b + (c + d)
  {
  }

  function BeatReplies(beat: bool): seq<Message> {
    if beat then [HeartbeatAck] else []
  }

  lemma LastOfWire(c: Codec, m: Message, rest: Bytes)
    requires Faithful(c)
    ensures NextReply(c, Wire(c, [m]) + rest) == (Got(m), rest)
  {
    NextOfWire(c, [m], rest);
    assert [m][1..] == [] && Wire(c, []) + rest == rest;
  }
}
