/** The promises ChildBroker makes, stated on `Broker.Step`, one event kind at
    a time, and on short runs of events. */
module Properties {
  import opened Types
  import opened Broker
  import opened Invariant
  import Keys

  /** A first connect for `pipe` records exactly that waiting entry and sends
      one connect request, or queues it while the parent channel is missing;
      nothing else changes. */
  lemma ConnectFirst(s: State, pipe: PipeId, endpoint: Endpoint)
    requires pipe !in s.pending
    ensures var r := Step(s, Connect(pipe, endpoint));
      && r.Done?
      && r.state == s.(pending := s.pending[pipe := endpoint], queue := r.state.queue)
      && (s.parent.Some? ==>
            && r.state.queue == s.queue
            && r.effects == [Write(s.parent.value, Outbound(s.brokerRoute, ConnectPipe(pipe)))])
      && (s.parent.None? ==>
            && r.state.queue == s.queue + [Outbound(s.brokerRoute, ConnectPipe(pipe))]
            && r.effects == [])
  {
  }

  /** A second connect for a waiting `pipe` with the parent channel up: one
      cancel goes to the parent and nothing else; the waiting endpoint is put
      on the first in-process channel and the new one on the second, both
      under route `pipe`; the waiting entry is gone. The pair is created
      only if it did not exist, and nothing else in the state changes. */
  lemma ConnectSibling(s: State, pipe: PipeId, endpoint: Endpoint)
    requires Inv(s) && pipe in s.pending && s.parent.Some?
    requires s.pending[pipe] != endpoint
    ensures var r := Step(s, Connect(pipe, endpoint));
      var waiting := s.pending[pipe];
      && r.Done? && r.state.pair.Some?
      && var first := r.state.pair.value.first;
      && var second := r.state.pair.value.second;
      && first != second
      && Written(r.effects) == [Outbound(s.brokerRoute, CancelConnect(pipe))]
      && OnlyTo(r.effects, s.parent.value)
      && r.state.connected[waiting] == first
      && r.state.connected[endpoint] == second
      && RouteKey(first, pipe) in r.state.routes && r.state.routes[RouteKey(first, pipe)] == PipeSink(waiting)
      && RouteKey(second, pipe) in r.state.routes && r.state.routes[RouteKey(second, pipe)] == PipeSink(endpoint)
      && GotChannel(waiting, first) in r.effects && GotChannel(endpoint, second) in r.effects
      && r.state.pending == s.pending - {pipe}
      && r.state.queue == s.queue && r.state.staged == s.staged
      && r.state.channels == s.channels && r.state.parent == s.parent
      && r.state == s.(pending := s.pending - {pipe},
                       connected := s.connected[waiting := first][endpoint := second],
                       routes := s.routes[RouteKey(first, pipe) := PipeSink(waiting)][RouteKey(second, pipe) := PipeSink(endpoint)],
                       pair := r.state.pair, nextChannel := r.state.nextChannel)
      && r.effects ==
           [Write(s.parent.value, Outbound(s.brokerRoute, CancelConnect(pipe)))]
           + (if s.pair.None? then [CreateChannel(first), CreateChannel(second)] else [])
           + [AddRoute(first, pipe, PipeSink(waiting)), AddRoute(second, pipe, PipeSink(endpoint)),
              GotChannel(waiting, first), GotChannel(endpoint, second)]
  {
    var r := Step(s, Connect(pipe, endpoint));
    assert r == JoinLocal(s, pipe, endpoint);
    JoinLocalExact(s, pipe, endpoint);
    ConnectLiveKeeps(s, pipe, endpoint);
  }

  /** The in-process pair, once created, is never replaced: every later
      local join reuses the same two channels. */
  lemma PairCreatedOnce(s: State, e: Event)
    requires s.pair.Some? && Step(s, e).Done?
    ensures Step(s, e).state.pair == s.pair
  {
    match e
    case Connect(pipe, endpoint) =>
    case Close(pipe, endpoint) =>
    case Receive(m) =>
    case InitAsyncChannel =>
    case ChannelDestructed(c) =>
  }

  /** A connect crashes exactly when a second local endpoint for the same
      waiting pipe id is staged twice before the parent channel exists. */
  lemma ConnectCrashes(s: State, pipe: PipeId, endpoint: Endpoint)
    ensures Step(s, Connect(pipe, endpoint)).Crash? <==>
      pipe in s.pending && s.parent.None? && pipe in s.staged
    ensures Step(s, Connect(pipe, endpoint)).Crash? ==>
      Step(s, Connect(pipe, endpoint)).fault == DuplicateStagedConnect(pipe)
  {
  }

  /** Before the parent channel exists a second connect is only staged:
      nothing is sent, queued or joined. */
  lemma ConnectStaged(s: State, pipe: PipeId, endpoint: Endpoint)
    requires pipe in s.pending && s.parent.None? && pipe !in s.staged
    ensures Step(s, Connect(pipe, endpoint)) == Done(s.(staged := s.staged[pipe := endpoint]), [])
  {
  }

  /** Every control message that reaches the wire is tagged with the broker
      route and written on the parent channel. */
  predicate TaggedToParent(s: State, r: Outcome)
    requires r.Done?
  {
    && r.state.brokerRoute == s.brokerRoute
    && (forall m :: m in Written(r.effects) ==> m.route == s.brokerRoute)
    && (Written(r.effects) != [] ==> r.state.parent.Some? && OnlyTo(r.effects, r.state.parent.value))
  }

  lemma ConnectTagged(s: State, pipe: PipeId, endpoint: Endpoint)
    requires Step(s, Connect(pipe, endpoint)).Done?
    ensures TaggedToParent(s, Step(s, Connect(pipe, endpoint)))
  {
    var r := Step(s, Connect(pipe, endpoint));
    if pipe in s.pending && s.parent.None? {
      assert r.effects == [];
    } else if pipe in s.pending {
      assert r == JoinLocal(s, pipe, endpoint);
    } else {
      assert r == Announce(s, pipe, endpoint);
      if s.parent.None? {
        assert r.effects == [];
      }
    }
  }

  lemma InitTagged(s: State)
    requires Inv(s)
    ensures TaggedToParent(s, Step(s, InitAsyncChannel))
  {
    var r := Step(s, InitAsyncChannel);
    assert r == InitAsync(s);
    var w := Written(r.effects);
    assert w == w[..|s.queue|] + w[|s.queue|..];
    forall m | m in w
      ensures m.route == s.brokerRoute
    {
      if m in w[..|s.queue|] {
        assert m in s.queue;
      } else {
        assert m in w[|s.queue|..];
      }
    }
  }

  lemma WritesTaggedToParent(s: State, e: Event)
    requires Inv(s) && Step(s, e).Done?
    ensures TaggedToParent(s, Step(s, e))
  {
    var r := Step(s, e);
    match e
    case Connect(pipe, endpoint) => ConnectTagged(s, pipe, endpoint);
    case Close(pipe, endpoint) => WrittenNone(r.effects);
    case Receive(m) => WrittenNone(r.effects);
    case InitAsyncChannel => InitTagged(s);
    case ChannelDestructed(c) => WrittenNone(r.effects);
  }

  /** The parent's answer for a waiting pipe: attach to the parent channel
      (process 0), fail the endpoint once when the peer's channel is already
      gone, or attach to the peer's channel. The waiting entry is consumed in
      every case; the broker crashes on an answer for process 0 before the
      parent channel exists, and on an endpoint that is already attached. */
  lemma PeerResolved(s: State, pipe: PipeId, pid: ProcessId)
    requires pipe in s.pending
    ensures var r := Step(s, Receive(PeerPipeConnected(pipe, pid)));
      var d := s.pending[pipe];
      && (r.Crash? <==>
            || (pid == ParentProcess && s.parent.None?)
            || (pid != ParentProcess && pid in s.channels && d in s.connected))
      && (r.Done? ==>
            && r.state.pending == s.pending - {pipe}
            && r.state.channels == s.channels && r.state.parent == s.parent && r.state.pair == s.pair
            && r.state.queue == s.queue && r.state.staged == s.staged)
      && (r.Done? && pid == ParentProcess ==>
            && r.state.connected == s.connected[d := s.parent.value]
            && r.state.routes == s.routes[RouteKey(s.parent.value, pipe) := PipeSink(d)]
            && r.effects == [AddRoute(s.parent.value, pipe, PipeSink(d)), GotChannel(d, s.parent.value)])
      && (pid != ParentProcess && pid !in s.channels ==>
            && r.Done?
            && r.effects == [ReadShutdown(d)]
            && r.state.connected == s.connected && r.state.routes == s.routes)
      && (r.Done? && pid != ParentProcess && pid in s.channels ==>
            && d !in s.connected
            && r.state.connected == s.connected[d := s.channels[pid]]
            && r.state.routes == s.routes[RouteKey(s.channels[pid], pipe) := PipeSink(d)]
            && r.effects == [AddRoute(s.channels[pid], pipe, PipeSink(d)), GotChannel(d, s.channels[pid])])
  {
  }

  /** An answer for a pipe id this broker is not waiting on is fatal. */
  lemma PeerUnknownFatal(s: State, pipe: PipeId, pid: ProcessId)
    requires pipe !in s.pending
    ensures Step(s, Receive(PeerPipeConnected(pipe, pid))) == Crash(UnknownPendingPipe(pipe))
  {
  }

  /** Any message type other than the two the broker handles is fatal. */
  lemma UnexpectedMessageFatal(s: State, kind: nat)
    ensures Step(s, Receive(Unrecognized(kind))) == Crash(UnexpectedMessage(kind))
  {
  }

  /** A new sibling process gets exactly one registry entry, on a channel
      object created for it; a second announcement of the same process is
      fatal. */
  lemma ProcessRegistered(s: State, pid: ProcessId)
    ensures var r := Step(s, Receive(ConnectToProcess(pid)));
      && (r.Crash? <==> pid in s.channels)
      && (r.Done? ==>
            && r.state.channels.Keys == s.channels.Keys + {pid}
            && |r.state.channels| == |s.channels| + 1
            && (forall q :: q in s.channels ==> r.state.channels[q] == s.channels[q])
            && r.state.channels[pid].id >= s.nextChannel
            && r.effects == [CreateChannel(r.state.channels[pid])]
            && r.state == s.(channels := r.state.channels, nextChannel := r.state.nextChannel))
  {
    if pid !in s.channels {
      var c := Channel(s.nextChannel);
      assert OnReadMessage(s, ConnectToProcess(pid)) ==
        Done(s.(channels := s.channels[pid := c], nextChannel := s.nextChannel + 1), [CreateChannel(c)]);
      assert s.channels[pid := c].Keys == s.channels.Keys + {pid};
    }
  }

  /** Closing an attached endpoint removes its route `pipe` from its channel
      and its attachment; closing one that is not attached is fatal. */
  lemma CloseDetaches(s: State, pipe: PipeId, endpoint: Endpoint)
    ensures var r := Step(s, Close(pipe, endpoint));
      && (r.Crash? <==> endpoint !in s.connected)
      && (r.Done? ==>
            && r.state.connected == s.connected - {endpoint}
            && r.state.routes == s.routes - {RouteKey(s.connected[endpoint], pipe)}
            && r.effects == [RemoveRoute(s.connected[endpoint], pipe)]
            && r.state == s.(connected := r.state.connected, routes := r.state.routes))
  {
  }

  /** Destruction of a channel drops at most one registry entry, only one
      that maps to that channel, and touches nothing else. */
  lemma DestructedDropsAtMostOne(s: State, c: Channel)
    ensures var r := Step(s, ChannelDestructed(c));
      && r.Done? && r.effects == []
      && r.state == s.(channels := r.state.channels)
      && r.state.channels.Keys <= s.channels.Keys
      && (forall pid :: pid in r.state.channels ==> r.state.channels[pid] == s.channels[pid])
      && (forall pid :: pid in s.channels && pid !in r.state.channels ==> s.channels[pid] == c)
      && (c !in s.channels.Values ==> r.state == s)
      && (c in s.channels.Values ==> |r.state.channels| == |s.channels| - 1)
  {
    var owners := set pid | pid in s.channels && s.channels[pid] == c;
    if c in s.channels.Values {
      var pid :| pid in s.channels && s.channels[pid] == c;
      assert pid in owners;
      var gone := Keys.Least(owners);
      var t := Step(s, ChannelDestructed(c)).state;
      assert t.channels.Keys == s.channels.Keys - {gone};
      assert |t.channels.Keys| == |s.channels.Keys| - 1;
    } else {
      assert owners == {};
    }
  }

  /** In a reachable state the destroyed channel leaves the registry
      entirely, so a second notification for it changes nothing. */
  lemma DestructedTwiceIsNoop(s: State, c: Channel)
    requires Inv(s)
    ensures c !in Step(s, ChannelDestructed(c)).state.channels.Values
    ensures var t := Step(s, ChannelDestructed(c)).state;
      Step(t, ChannelDestructed(c)) == Done(t, [])
  {
    var t := Step(s, ChannelDestructed(c)).state;
    DestructedDropsAtMostOne(s, c);
    DestructedDropsAtMostOne(t, c);
  }
}
