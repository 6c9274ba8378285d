/** The per-child message-pipe broker (ChildBroker), as a pure transition
    function over its tables. Every public entry point is an `Event`; `Step`
    yields either a `Crash` (a failed CHECK, an unreachable message type, or
    a dereference of the still-missing parent channel) or the next state
    together with the effects on channels and dispatchers, in order. */
module Broker {
  import opened Types
  import Keys

  /** The lazily created pair of in-process channels. */
  datatype ChannelPair = ChannelPair(first: Channel, second: Channel)

  datatype State = State(
    brokerRoute: RouteId,              // route id every control message is tagged with
    pending: map<PipeId, Endpoint>,    // connects sent upstream, peer not yet known
    staged: map<PipeId, Endpoint>,     // second local connects seen before the parent channel
    connected: map<Endpoint, Channel>, // endpoints attached to a channel
    channels: map<ProcessId, Channel>, // direct channels to sibling processes
    parent: Option<Channel>,           // the asynchronous channel to the parent, once opened
    pair: Option<ChannelPair>,         // the in-process channel pair, once created
    queue: seq<Outbound>,              // control messages waiting for the parent channel
    routes: map<RouteKey, Sink>,       // routes this broker added on channels
    nextChannel: nat)                  // identity of the next channel object created

  datatype Fault =
    | DuplicateStagedConnect(pipe: PipeId)
    | NotConnected(endpoint: Endpoint)
    | ProcessAlreadyKnown(process: ProcessId)
    | UnknownPendingPipe(pipe: PipeId)
    | AlreadyConnected(endpoint: Endpoint)
    | NoParentChannel(pipe: PipeId)
    | UnexpectedMessage(kind: nat)

  datatype Outcome = Crash(fault: Fault) | Done(state: State, effects: seq<Effect>)

  datatype Event =
    | Connect(pipe: PipeId, endpoint: Endpoint)
    | Close(pipe: PipeId, endpoint: Endpoint)
    | Receive(message: Inbound)
    | InitAsyncChannel
    | ChannelDestructed(channel: Channel)

  /** A freshly constructed broker: no channel to the parent yet. */
  function Initial(brokerRoute: RouteId): (s: State)
    ensures s.parent.None? && s.pair.None? && s.queue == []
  {
    State(brokerRoute, map[], map[], map[], map[], None, None, [], map[], 0)
  }

  /** The endpoint `endpoint` that asked for `pipe` is either attached to a
      channel or still waiting under `pipe`. */
  predicate Attached(s: State, pipe: PipeId, endpoint: Endpoint) {
    endpoint in s.connected || (pipe in s.pending && s.pending[pipe] == endpoint)
  }

  /** Sends a control message to the parent on the broker route, or queues it
      while the parent channel does not exist yet. */
  function WriteAsync(s: State, body: Control): (r: Outcome)
    ensures r.Done?
    ensures r.state.queue + Written(r.effects) == s.queue + [Outbound(s.brokerRoute, body)]
    ensures r.state == s.(queue := r.state.queue)
    ensures s.parent.Some? ==> r.state.queue == s.queue && OnlyTo(r.effects, s.parent.value)
    ensures s.parent.None? ==> r.effects == []
  {
    var m := Outbound(s.brokerRoute, body);
    match s.parent
    case Some(c) => Done(s, [Write(c, m)])
    case None => Done(s.(queue := s.queue + [m]), [])
  }

  /** First connect for `pipe`: remember the endpoint and ask the parent
      where the peer lives. */
  function Announce(s: State, pipe: PipeId, endpoint: Endpoint): (r: Outcome)
    ensures r.Done?
    ensures r.state.pending == s.pending[pipe := endpoint]
    ensures r.state == s.(pending := r.state.pending, queue := r.state.queue)
    ensures r.state.queue + Written(r.effects) == s.queue + [Outbound(s.brokerRoute, ConnectPipe(pipe))]
    ensures s.parent.Some? ==> r.state.queue == s.queue && OnlyTo(r.effects, s.parent.value)
    ensures s.parent.None? ==> r.effects == []
  {
    WriteAsync(s.(pending := s.pending[pipe := endpoint]), ConnectPipe(pipe))
  }

  /** Creates the in-process channel pair unless it already exists. */
  function EnsurePair(s: State): (r: Outcome)
    ensures r.Done? && r.state.pair.Some?
    ensures r.state == s.(pair := r.state.pair, nextChannel := r.state.nextChannel)
    ensures s.pair.Some? ==> r.state == s && r.effects == []
    ensures s.pair.None? ==>
      && s.nextChannel <= r.state.pair.value.first.id
      && r.state.pair.value.first != r.state.pair.value.second
      && s.nextChannel <= r.state.pair.value.second.id < r.state.nextChannel
      && r.state.pair.value.first.id < r.state.nextChannel
      && r.effects == [CreateChannel(r.state.pair.value.first), CreateChannel(r.state.pair.value.second)]
  {
    if s.pair.Some? then Done(s, [])
    else
      var first := Channel(s.nextChannel);
      var second := Channel(s.nextChannel + 1);
      Done(s.(pair := Some(ChannelPair(first, second)), nextChannel := s.nextChannel + 2),
           [CreateChannel(first), CreateChannel(second)])
  }

  /** Second connect for a pending `pipe` while the parent channel exists:
      both ends live in this process. Retract the upstream request and join
      the two endpoints through the in-process pair, both routed by `pipe`. */
  function JoinLocal(s: State, pipe: PipeId, endpoint: Endpoint): (r: Outcome)
    requires pipe in s.pending && s.parent.Some?
    ensures r.Done? && r.state.pair.Some?
    ensures s.pair.Some? ==> r.state.pair == s.pair
    ensures s.pair.None? ==>
      && r.state.pair.value.first != r.state.pair.value.second
      && s.nextChannel <= r.state.pair.value.first.id < r.state.nextChannel
      && s.nextChannel <= r.state.pair.value.second.id < r.state.nextChannel
    ensures Written(r.effects) == [Outbound(s.brokerRoute, CancelConnect(pipe))]
    ensures OnlyTo(r.effects, s.parent.value)
    ensures r.state.pending == s.pending - {pipe}
    ensures r.state.connected.Keys == s.connected.Keys + {s.pending[pipe], endpoint}
    ensures r.state.connected[endpoint] == r.state.pair.value.second
    ensures s.pending[pipe] != endpoint ==> r.state.connected[s.pending[pipe]] == r.state.pair.value.first
    ensures forall d :: d in s.connected && d != endpoint && d != s.pending[pipe] ==>
      r.state.connected[d] == s.connected[d]
    ensures RouteKey(r.state.pair.value.first, pipe) in r.state.routes
    ensures RouteKey(r.state.pair.value.second, pipe) in r.state.routes
    ensures r.state.routes[RouteKey(r.state.pair.value.second, pipe)] == PipeSink(endpoint)
    ensures r.state == s.(pending := r.state.pending, connected := r.state.connected, routes := r.state.routes,
                          pair := r.state.pair, nextChannel := r.state.nextChannel)
  {
    var cancel := WriteAsync(s, CancelConnect(pipe));
    var made := EnsurePair(cancel.state);
    var joined := AttachPair(made.state, pipe, endpoint);
    assert Written(cancel.effects) == [Outbound(s.brokerRoute, CancelConnect(pipe))];
    WrittenNone(made.effects);
    WrittenNone(joined.effects);
    WrittenAppend(cancel.effects, made.effects);
    WrittenAppend(cancel.effects + made.effects, joined.effects);
    Done(joined.state, cancel.effects + made.effects + joined.effects)
  }

  /** A local join changes routes and attachments at exactly the two entries
      of the pair, and emits exactly the cancel, the pair's creation when it
      is new, the two route additions and the two notifications. */
  lemma JoinLocalExact(s: State, pipe: PipeId, endpoint: Endpoint)
    requires pipe in s.pending && s.parent.Some?
    ensures var r := JoinLocal(s, pipe, endpoint);
      var p := r.state.pair.value; var waiting := s.pending[pipe];
      && r.state.connected == s.connected[waiting := p.first][endpoint := p.second]
      && r.state.routes == s.routes[RouteKey(p.first, pipe) := PipeSink(waiting)][RouteKey(p.second, pipe) := PipeSink(endpoint)]
      && r.effects ==
           [Write(s.parent.value, Outbound(s.brokerRoute, CancelConnect(pipe)))]
           + (if s.pair.None? then [CreateChannel(p.first), CreateChannel(p.second)] else [])
           + [AddRoute(p.first, pipe, PipeSink(waiting)), AddRoute(p.second, pipe, PipeSink(endpoint)),
              GotChannel(waiting, p.first), GotChannel(endpoint, p.second)]
  {
  }

  /** Puts the waiting endpoint of `pipe` on the first in-process channel and
      `endpoint` on the second, both routed by `pipe`. */
  function AttachPair(s: State, pipe: PipeId, endpoint: Endpoint): (r: Outcome)
    requires pipe in s.pending && s.pair.Some?
    ensures r.Done?
    ensures forall i :: 0 <= i < |r.effects| ==> !r.effects[i].Write?
    ensures r.state.pending == s.pending - {pipe}
    ensures r.state.connected.Keys == s.connected.Keys + {s.pending[pipe], endpoint}
    ensures r.state.connected[endpoint] == s.pair.value.second
    ensures s.pending[pipe] != endpoint ==> r.state.connected[s.pending[pipe]] == s.pair.value.first
    ensures forall d :: d in s.connected && d != endpoint && d != s.pending[pipe] ==>
      r.state.connected[d] == s.connected[d]
    ensures RouteKey(s.pair.value.first, pipe) in r.state.routes
    ensures RouteKey(s.pair.value.second, pipe) in r.state.routes
    ensures r.state.routes[RouteKey(s.pair.value.second, pipe)] == PipeSink(endpoint)
    ensures r.state == s.(pending := r.state.pending, connected := r.state.connected, routes := r.state.routes)
  {
    var first := s.pair.value.first;
    var second := s.pair.value.second;
    var waiting := s.pending[pipe];
    Done(s.(connected := s.connected[waiting := first][endpoint := second],
            routes := s.routes[RouteKey(first, pipe) := PipeSink(waiting)][RouteKey(second, pipe) := PipeSink(endpoint)],
            pending := s.pending - {pipe}),
         [AddRoute(first, pipe, PipeSink(waiting)), AddRoute(second, pipe, PipeSink(endpoint)),
          GotChannel(waiting, first), GotChannel(endpoint, second)])
  }

  /** A connect once the parent channel exists; it can no longer be staged. */
  function ConnectLive(s: State, pipe: PipeId, endpoint: Endpoint): (r: Outcome)
    requires s.parent.Some?
    ensures r.Done?
    ensures Written(r.effects) ==
      [Outbound(s.brokerRoute, if pipe in s.pending then CancelConnect(pipe) else ConnectPipe(pipe))]
    ensures OnlyTo(r.effects, s.parent.value)
    ensures r.state.queue == s.queue && r.state.staged == s.staged && r.state.channels == s.channels
    ensures r.state.parent == s.parent && r.state.brokerRoute == s.brokerRoute
    ensures Attached(r.state, pipe, endpoint)
    ensures s.connected.Keys <= r.state.connected.Keys
    ensures forall q :: q in s.pending && q != pipe ==> q in r.state.pending && r.state.pending[q] == s.pending[q]
    ensures s.pair.Some? ==> r.state.pair == s.pair
  {
    if pipe in s.pending then JoinLocal(s, pipe, endpoint) else Announce(s, pipe, endpoint)
  }

  /** Besides the entries ConnectLive keeps, no pipe id starts or stops
      waiting other than `pipe`; a waiting `pipe` ends with both endpoints
      attached. */
  lemma ConnectLiveJoins(s: State, pipe: PipeId, endpoint: Endpoint)
    requires s.parent.Some?
    ensures var r := ConnectLive(s, pipe, endpoint).state;
      && (forall q :: q != pipe ==> (q in r.pending <==> q in s.pending))
      && (pipe in s.pending ==> s.pending[pipe] in r.connected && endpoint in r.connected)
  {
  }

  /** ConnectMessagePipe: a second connect for a waiting pipe id is staged
      while the parent channel is missing, joined locally once it exists; a
      first connect is announced to the parent. */
  function ConnectMessagePipe(s: State, pipe: PipeId, endpoint: Endpoint): Outcome {
    if pipe in s.pending && s.parent.None? then
      if pipe in s.staged then Crash(DuplicateStagedConnect(pipe))
      else Done(s.(staged := s.staged[pipe := endpoint]), [])
    else if pipe in s.pending then JoinLocal(s, pipe, endpoint)
    else Announce(s, pipe, endpoint)
  }

  /** CloseMessagePipe: the endpoint must be attached; detach it. */
  function CloseMessagePipe(s: State, pipe: PipeId, endpoint: Endpoint): Outcome {
    if endpoint !in s.connected then Crash(NotConnected(endpoint))
    else
      var c := s.connected[endpoint];
      Done(s.(routes := s.routes - {RouteKey(c, pipe)}, connected := s.connected - {endpoint}),
           [RemoveRoute(c, pipe)])
  }

  /** Attaches `endpoint` to channel `c` under route `pipe`. */
  function Attach(s: State, pipe: PipeId, endpoint: Endpoint, c: Channel): Outcome {
    Done(s.(connected := s.connected[endpoint := c], routes := s.routes[RouteKey(c, pipe) := PipeSink(endpoint)]),
         [AddRoute(c, pipe, PipeSink(endpoint)), GotChannel(endpoint, c)])
  }

  /** OnReadMessage: a control message from the parent. */
  function OnReadMessage(s: State, m: Inbound): Outcome {
    match m
    case ConnectToProcess(pid) =>
      if pid in s.channels then Crash(ProcessAlreadyKnown(pid))
      else
        var c := Channel(s.nextChannel);
        Done(s.(channels := s.channels[pid := c], nextChannel := s.nextChannel + 1), [CreateChannel(c)])
    case PeerPipeConnected(pipe, pid) =>
      if pipe !in s.pending then Crash(UnknownPendingPipe(pipe))
      else
        var endpoint := s.pending[pipe];
        var t := s.(pending := s.pending - {pipe});
        if pid == ParentProcess then
          if s.parent.None? then Crash(NoParentChannel(pipe))
          else Attach(t, pipe, endpoint, s.parent.value)
        else if pid !in s.channels then Done(t, [ReadShutdown(endpoint)])
        else if endpoint in s.connected then Crash(AlreadyConnected(endpoint))
        else Attach(t, pipe, endpoint, s.channels[pid])
    case Unrecognized(kind) => Crash(UnexpectedMessage(kind))
  }

  /** ChannelDestructed: forget the first registry entry that maps to `c`,
      if any. The registry's iteration order is assumed to be ascending
      process id. Nothing else refers to the registry. */
  function OnChannelDestructed(s: State, c: Channel): Outcome {
    var owners := set pid | pid in s.channels && s.channels[pid] == c;
    if owners == {} then Done(s, [])
    else Done(s.(channels := s.channels - {Keys.Least(owners)}), [])
  }

  /** Replays the staged connects, each through the ordinary connect path,
      and empties the staging map. The staging map's iteration order is
      assumed to be ascending pipe id. */
  function Replay(s: State): (r: Outcome)
    requires s.parent.Some?
    ensures r.Done?
    ensures r.state.staged == map[]
    ensures r.state.queue == s.queue && r.state.channels == s.channels
    ensures r.state.parent == s.parent && r.state.brokerRoute == s.brokerRoute
    ensures OnlyTo(r.effects, s.parent.value)
    ensures |Written(r.effects)| == |s.staged|
    ensures forall m :: m in Written(r.effects) ==> m.route == s.brokerRoute && m.body.pipe in s.staged
    ensures s.pair.Some? ==> r.state.pair == s.pair
    decreases |s.staged|
  {
    if s.staged == map[] then Done(s, [])
    else
      var pipe := Keys.Least(s.staged.Keys);
      var first := ConnectLive(s, pipe, s.staged[pipe]);
      var next := first.state.(staged := first.state.staged - {pipe});
      assert next.staged.Keys == s.staged.Keys - {pipe};
      var rest := Replay(next);
      WrittenAppend(first.effects, rest.effects);
      OnlyToAppend(first.effects, rest.effects, s.parent.value);
      assert forall q :: q in next.staged ==> q in s.staged;
      Done(rest.state, first.effects + rest.effects)
  }

  /** No endpoint is detached by a replay, and waiting connects that were
      not staged stay waiting. */
  lemma {:induction false} ReplayPreserves(s: State)
    requires s.parent.Some?
    ensures s.connected.Keys <= Replay(s).state.connected.Keys
    ensures forall q :: q in s.pending && q !in s.staged ==>
      q in Replay(s).state.pending && Replay(s).state.pending[q] == s.pending[q]
    decreases |s.staged|
  {
    if s.staged != map[] {
      var pipe := Keys.Least(s.staged.Keys);
      var first := ConnectLive(s, pipe, s.staged[pipe]);
      var next := first.state.(staged := first.state.staged - {pipe});
      ReplayPreserves(next);
      assert Replay(s).state == Replay(next).state;
    }
  }

  /** Every staged endpoint ends up attached. */
  lemma {:induction false} ReplayAttaches(s: State)
    requires s.parent.Some?
    ensures forall p :: p in s.staged ==> Attached(Replay(s).state, p, s.staged[p])
    decreases |s.staged|
  {
    if s.staged != map[] {
      var pipe := Keys.Least(s.staged.Keys);
      var first := ConnectLive(s, pipe, s.staged[pipe]);
      var next := first.state.(staged := first.state.staged - {pipe});
      ReplayAttaches(next);
      ReplayPreserves(next);
      var t := Replay(s).state;
      assert t == Replay(next).state;
      assert Attached(t, pipe, s.staged[pipe]);
      assert forall p :: p in s.staged && p != pipe ==> p in next.staged && next.staged[p] == s.staged[p];
    }
  }

  /** A staged connect whose pipe id is still waiting when the replay runs
      is joined locally: both of its endpoints end attached. */
  lemma {:induction false} ReplayJoins(s: State)
    requires s.parent.Some?
    ensures forall p :: p in s.staged && p in s.pending ==>
      s.pending[p] in Replay(s).state.connected && s.staged[p] in Replay(s).state.connected
    decreases |s.staged|
  {
    if s.staged != map[] {
      var pipe := Keys.Least(s.staged.Keys);
      var first := ConnectLive(s, pipe, s.staged[pipe]);
      var next := first.state.(staged := first.state.staged - {pipe});
      ConnectLiveJoins(s, pipe, s.staged[pipe]);
      ReplayJoins(next);
      ReplayPreserves(next);
      var t := Replay(s).state;
      assert t == Replay(next).state;
      forall p | p in s.staged && p in s.pending
        ensures s.pending[p] in t.connected && s.staged[p] in t.connected
      {
        if p != pipe {
          assert p in next.staged && next.staged[p] == s.staged[p];
          assert p in next.pending && next.pending[p] == s.pending[p];
        }
      }
    }
  }

  /** The message a replayed connect for `p` sends: a cancel when `p` was
      still waiting, otherwise a connect request. */
  function ReplayMessage(s: State, p: PipeId): Outbound {
    Outbound(s.brokerRoute, if p in s.pending then CancelConnect(p) else ConnectPipe(p))
  }

  /** Every staged pipe id gets its replay message. */
  lemma {:induction false} ReplayAnswers(s: State)
    requires s.parent.Some?
    ensures forall p :: p in s.staged ==> ReplayMessage(s, p) in Written(Replay(s).effects)
    decreases |s.staged|
  {
    if s.staged != map[] {
      var pipe := Keys.Least(s.staged.Keys);
      var first := ConnectLive(s, pipe, s.staged[pipe]);
      var next := first.state.(staged := first.state.staged - {pipe});
      ConnectLiveJoins(s, pipe, s.staged[pipe]);
      ReplayAnswers(next);
      assert Replay(s).effects == first.effects + Replay(next).effects;
      WrittenAppend(first.effects, Replay(next).effects);
      var w := Written(Replay(s).effects);
      forall p | p in s.staged
        ensures ReplayMessage(s, p) in w
      {
        if p != pipe {
          assert p in next.staged;
          assert (p in next.pending) == (p in s.pending);
          assert ReplayMessage(next, p) == ReplayMessage(s, p);
        } else {
          assert w[0] == ReplayMessage(s, p);
        }
      }
    }
  }

  /** InitAsyncChannel: open the parent channel, route broker messages on it,
      flush the queue in order, then replay the staged connects. */
  function InitAsync(s: State): (r: Outcome)
    ensures r.Done?
    ensures r.state.parent == Some(Channel(s.nextChannel))
    ensures r.state.queue == [] && r.state.staged == map[]
    ensures OnlyTo(r.effects, r.state.parent.value)
    ensures |Written(r.effects)| == |s.queue| + |s.staged|
    ensures Written(r.effects)[..|s.queue|] == s.queue
    ensures forall m :: m in Written(r.effects)[|s.queue|..] ==> m.route == s.brokerRoute && m.body.pipe in s.staged
    ensures forall p :: p in s.staged ==> Attached(r.state, p, s.staged[p])
  {
    var c := Channel(s.nextChannel);
    var replay := Replay(OpenParent(s));
    ReplayAttaches(OpenParent(s));
    WrittenFlush([CreateChannel(c), AddRoute(c, s.brokerRoute, BrokerSink)], c, s.queue, replay.effects);
    Done(replay.state, OpenEffects(s) + replay.effects)
  }

  /** The broker once the parent channel object exists and the broker route
      is added on it; the queue is about to be flushed. */
  function OpenParent(s: State): State {
    var c := Channel(s.nextChannel);
    s.(parent := Some(c), nextChannel := s.nextChannel + 1, queue := [],
       routes := s.routes[RouteKey(c, s.brokerRoute) := BrokerSink])
  }

  /** Creating the parent channel, adding the broker route, flushing the queue. */
  function OpenEffects(s: State): seq<Effect> {
    var c := Channel(s.nextChannel);
    [CreateChannel(c), AddRoute(c, s.brokerRoute, BrokerSink)] + WritesTo(c, s.queue)
  }

  /** One event of the broker's life. */
  function Step(s: State, e: Event): Outcome {
    match e
    case Connect(pipe, endpoint) => ConnectMessagePipe(s, pipe, endpoint)
    case Close(pipe, endpoint) => CloseMessagePipe(s, pipe, endpoint)
    case Receive(m) => OnReadMessage(s, m)
    case InitAsyncChannel => InitAsync(s)
    case ChannelDestructed(c) => OnChannelDestructed(s, c)
  }

  /** A sequence of events; a crash ends the run. */
  function Run(s: State, es: seq<Event>): Outcome
    decreases |es|
  {
    if es == [] then Done(s, [])
    else
      match Step(s, es[0])
      case Crash(f) => Crash(f)
      case Done(t, out) =>
        match Run(t, es[1..])
        case Crash(f) => Crash(f)
        case Done(u, more) => Done(u, out + more)
  }
}
