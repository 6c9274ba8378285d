/** What holds of every broker state reachable from `Broker.Initial`. */
module Invariant {
  import opened Types
  import opened Broker

  /** Every channel the broker refers to is one it has created. */
  predicate Allocated(s: State) {
    && (forall pid :: pid in s.channels ==> s.channels[pid].id < s.nextChannel)
    && (s.parent.Some? ==> s.parent.value.id < s.nextChannel)
    && (s.pair.Some? ==> s.pair.value.first.id < s.nextChannel && s.pair.value.second.id < s.nextChannel)
    && (forall d :: d in s.connected ==> s.connected[d].id < s.nextChannel)
    && (forall k :: k in s.routes ==> k.channel.id < s.nextChannel)
  }

  /** The parent channel, the two in-process channels and the sibling
      channels are pairwise different objects, one per process. */
  predicate Distinct(s: State) {
    && (forall p, q :: p in s.channels && q in s.channels && p != q ==> s.channels[p] != s.channels[q])
    && (s.parent.Some? ==> s.parent.value !in s.channels.Values)
    && (s.pair.Some? ==>
          && s.pair.value.first != s.pair.value.second
          && s.pair.value.first !in s.channels.Values
          && s.pair.value.second !in s.channels.Values
          && s.parent.Some?
          && s.parent.value != s.pair.value.first
          && s.parent.value != s.pair.value.second)
  }

  /** Before the parent channel exists nothing is joined locally; once it
      exists nothing is queued or staged any more. */
  predicate Phases(s: State) {
    s.parent.Some? ==> s.queue == [] && s.staged == map[]
  }

  /** Only connect requests wait in the queue, each tagged with the broker
      route: a cancel is never queued behind its own connect. */
  predicate QueuedConnects(s: State) {
    forall m :: m in s.queue ==> m.route == s.brokerRoute && m.body.ConnectPipe?
  }

  predicate Inv(s: State) {
    Allocated(s) && Distinct(s) && Phases(s) && QueuedConnects(s)
  }

  lemma InitialInv(route: RouteId)
    ensures Inv(Initial(route))
  {
  }

  /** A connect on a live broker keeps the channel bookkeeping sound. */
  lemma ConnectLiveKeeps(s: State, pipe: PipeId, endpoint: Endpoint)
    requires s.parent.Some? && Allocated(s) && Distinct(s)
    ensures Allocated(ConnectLive(s, pipe, endpoint).state)
    ensures Distinct(ConnectLive(s, pipe, endpoint).state)
    ensures s.pair.Some? ==> ConnectLive(s, pipe, endpoint).state.pair == s.pair
  {
    if pipe in s.pending {
      JoinLocalKeeps(s, pipe, endpoint);
    }
  }

  /** A local join allocates its pair, if it must, from fresh channels. */
  lemma JoinLocalKeeps(s: State, pipe: PipeId, endpoint: Endpoint)
    requires pipe in s.pending && s.parent.Some? && Allocated(s) && Distinct(s)
    ensures Allocated(JoinLocal(s, pipe, endpoint).state)
    ensures Distinct(JoinLocal(s, pipe, endpoint).state)
  {
    var t := JoinLocal(s, pipe, endpoint).state;
    assert t.channels == s.channels && t.parent == s.parent;
    if s.pair.None? {
      var p := t.pair.value;
      assert p.first !in s.channels.Values && p.second !in s.channels.Values;
    }
  }

  lemma {:induction false} ReplayKeeps(s: State)
    requires s.parent.Some? && Allocated(s) && Distinct(s)
    ensures Allocated(Replay(s).state) && Distinct(Replay(s).state)
    ensures s.pair.Some? ==> Replay(s).state.pair == s.pair
    decreases |s.staged|
  {
    if s.staged != map[] {
      var pipe := Keys.Least(s.staged.Keys);
      var first := ConnectLive(s, pipe, s.staged[pipe]);
      ConnectLiveKeeps(s, pipe, s.staged[pipe]);
      var next := first.state.(staged := first.state.staged - {pipe});
      ReplayKeeps(next);
      assert Replay(s).state == Replay(next).state;
    }
  }

  lemma InitAsyncKeeps(s: State)
    requires Inv(s)
    ensures Inv(InitAsync(s).state)
  {
    var live := OpenParent(s);
    if s.pair.Some? {
      assert s.parent.Some?;
    }
    assert Allocated(live);
    assert Distinct(live);
    ReplayKeeps(live);
  }

  lemma DestructedKeeps(s: State, c: Channel)
    requires Inv(s)
    ensures Inv(OnChannelDestructed(s, c).state)
  {
    var t := OnChannelDestructed(s, c).state;
    assert t.channels.Values <= s.channels.Values;
  }

  lemma ConnectToProcessKeeps(s: State, pid: ProcessId)
    requires Inv(s) && OnReadMessage(s, ConnectToProcess(pid)).Done?
    ensures Inv(OnReadMessage(s, ConnectToProcess(pid)).state)
  {
    var t := OnReadMessage(s, ConnectToProcess(pid)).state;
    var c := Channel(s.nextChannel);
    assert t == s.(channels := s.channels[pid := c], nextChannel := s.nextChannel + 1);
    assert forall q :: q in s.channels ==> s.channels[q] != c;
    assert forall v :: v in t.channels.Values ==> v in s.channels.Values || v == c;
  }

  lemma PeerConnectedKeeps(s: State, pipe: PipeId, pid: ProcessId)
    requires Inv(s) && OnReadMessage(s, PeerPipeConnected(pipe, pid)).Done?
    ensures Inv(OnReadMessage(s, PeerPipeConnected(pipe, pid)).state)
  {
    var endpoint := s.pending[pipe];
    var t := s.(pending := s.pending - {pipe});
    assert Inv(t);
    if pid == ParentProcess {
      AttachKeeps(t, pipe, endpoint, t.parent.value);
    } else if pid in s.channels {
      AttachKeeps(t, pipe, endpoint, t.channels[pid]);
    }
  }

  /** Attaching an endpoint to an existing channel keeps the invariant. */
  lemma AttachKeeps(s: State, pipe: PipeId, endpoint: Endpoint, c: Channel)
    requires Inv(s) && c.id < s.nextChannel
    ensures Inv(Attach(s, pipe, endpoint, c).state)
  {
  }

  lemma ReceiveKeeps(s: State, m: Inbound)
    requires Inv(s) && OnReadMessage(s, m).Done?
    ensures Inv(OnReadMessage(s, m).state)
  {
    match m
    case ConnectToProcess(pid) => ConnectToProcessKeeps(s, pid);
    case PeerPipeConnected(pipe, pid) => PeerConnectedKeeps(s, pipe, pid);
  }

  lemma ConnectKeeps(s: State, pipe: PipeId, endpoint: Endpoint)
    requires Inv(s) && ConnectMessagePipe(s, pipe, endpoint).Done?
    ensures Inv(ConnectMessagePipe(s, pipe, endpoint).state)
  {
    if pipe in s.pending && s.parent.Some? {
      ConnectLiveKeeps(s, pipe, endpoint);
    }
  }

  /** Every event that does not crash keeps the invariant. */
  lemma StepKeeps(s: State, e: Event)
    requires Inv(s) && Step(s, e).Done?
    ensures Inv(Step(s, e).state)
  {
    match e
    case Connect(pipe, endpoint) => ConnectKeeps(s, pipe, endpoint);
    case Close(pipe, endpoint) =>
    case Receive(m) => ReceiveKeeps(s, m);
    case InitAsyncChannel => InitAsyncKeeps(s);
    case ChannelDestructed(c) => DestructedKeeps(s, c);
  }

  /** The invariant holds after any run that does not crash. */
  lemma {:induction false} RunKeeps(s: State, es: seq<Event>)
    requires Inv(s) && Run(s, es).Done?
    ensures Inv(Run(s, es).state)
    decreases |es|
  {
    if es != [] {
      StepKeeps(s, es[0]);
      RunKeeps(Step(s, es[0]).state, es[1..]);
    }
  }
}
