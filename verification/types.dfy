/** Identities, control messages and externally visible effects of the child
    broker. Dispatchers and channels are opaque: the broker only stores them,
    compares them and hands them to the routed-channel layer. */
module Types {

  /** A message-pipe identifier; it becomes the route id once the pipe is attached. */
  type PipeId = nat

  /** A process identifier; `ParentProcess` names the parent, not a child. */
  type ProcessId = nat

  /** A multiplexing key on a routed channel. */
  type RouteId = nat

  const ParentProcess: ProcessId := 0

  /** A message-pipe dispatcher, known only by its identity. */
  datatype Endpoint = Endpoint(id: nat)

  /** A routed raw channel object, known only by its identity. */
  datatype Channel = Channel(id: nat)

  datatype Option<+T> = None | Some(value: T)

  /** The two control messages a child sends to its parent. */
  datatype Control =
    | ConnectPipe(pipe: PipeId)
    | CancelConnect(pipe: PipeId)

  /** A control message as it travels: tagged with the route it is written on. */
  datatype Outbound = Outbound(route: RouteId, body: Control)

  /** The messages the parent sends to the child broker. `Unrecognized`
      stands for any other message type value. */
  datatype Inbound =
    | ConnectToProcess(process: ProcessId)
    | PeerPipeConnected(pipe: PipeId, process: ProcessId)
    | Unrecognized(kind: nat)

  /** Who receives what arrives on a route. */
  datatype Sink = BrokerSink | PipeSink(endpoint: Endpoint)

  datatype RouteKey = RouteKey(channel: Channel, route: RouteId)

  /** What the broker does to the objects around it, in order. */
  datatype Effect =
    | CreateChannel(channel: Channel)
    | Write(channel: Channel, message: Outbound)
    | AddRoute(channel: Channel, route: RouteId, sink: Sink)
    | RemoveRoute(channel: Channel, route: RouteId)
    | GotChannel(endpoint: Endpoint, channel: Channel)
    | ReadShutdown(endpoint: Endpoint)

  /** The control messages written to any channel, in order. */
  function Written(es: seq<Effect>): (r: seq<Outbound>)
    ensures |r| <= |es|
  {
    if es == [] then []
    else (if es[0].Write? then [es[0].message] else []) + Written(es[1..])
  }

  /** Every write in `es` goes to channel `c`. */
  predicate OnlyTo(es: seq<Effect>, c: Channel) {
    forall i :: 0 <= i < |es| && es[i].Write? ==> es[i].channel == c
  }

  lemma OnlyToAppend(a: seq<Effect>, b: seq<Effect>, c: Channel)
    requires OnlyTo(a, c) && OnlyTo(b, c)
    ensures OnlyTo(a + b, c)
  {
    forall i | 0 <= i < |a + b| && (a + b)[i].Write?
      ensures (a + b)[i].channel == c
    {
      if i >= |a| {
        assert (a + b)[i] == b[i - |a|];
      }
    }
  }

  /** One write to `c` per message of `q`, in the order of `q`. */
  function WritesTo(c: Channel, q: seq<Outbound>): (r: seq<Effect>)
    ensures |r| == |q|
    ensures forall i :: 0 <= i < |r| ==> r[i] == Write(c, q[i])
  {
    if q == [] then [] else [Write(c, q[0])] + WritesTo(c, q[1..])
  }

  lemma {:induction false} WrittenAppend(a: seq<Effect>, b: seq<Effect>)
    ensures Written(a + b) == Written(a) + Written(b)
  {
    if a == [] {
      assert a + b == b;
    } else {
      var ab := a + b;
      assert ab[0] == a[0];
      assert ab[1..] == a[1..] + b;
      WrittenAppend(a[1..], b);
      assert Written(ab) == (if a[0].Write? then [a[0].message] else []) + Written(ab[1..]);
    }
  }

  lemma {:induction false} WrittenNone(es: seq<Effect>)
    requires forall i :: 0 <= i < |es| ==> !es[i].Write?
    ensures Written(es) == []
  {
    if es != [] {
      WrittenNone(es[1..]);
    }
  }

  lemma {:induction false} WrittenWritesTo(c: Channel, q: seq<Outbound>)
    ensures Written(WritesTo(c, q)) == q
  {
    if q != [] {
      var w := WritesTo(c, q);
      assert w[1..] == WritesTo(c, q[1..]);
      WrittenWritesTo(c, q[1..]);
    }
  }

  /** Effects without writes, then a flushed queue, then anything: the
      written messages are the queue followed by what the tail writes. */
  lemma WrittenFlush(head: seq<Effect>, c: Channel, q: seq<Outbound>, tail: seq<Effect>)
    requires forall i :: 0 <= i < |head| ==> !head[i].Write?
    ensures Written(head + WritesTo(c, q) + tail) == q + Written(tail)
  {
    WrittenAppend(head + WritesTo(c, q), tail);
    WrittenAppend(head, WritesTo(c, q));
    WrittenNone(head);
    WrittenWritesTo(c, q);
  }
}
