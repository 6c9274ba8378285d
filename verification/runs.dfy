/** Properties of short runs of broker events: ordering across the moment
    the parent channel opens, and the two-siblings-in-one-process handshake. */
module Runs {
  import opened Types
  import opened Broker
  import opened Invariant
  import Properties

  /** One connect event per pipe id, in order. */
  function Connects(pipes: seq<PipeId>, ends: seq<Endpoint>): (es: seq<Event>)
    requires |pipes| == |ends|
    ensures |es| == |pipes|
    ensures forall i :: 0 <= i < |es| ==> es[i] == Connect(pipes[i], ends[i])
  {
    seq(|pipes|, i requires 0 <= i < |pipes| => Connect(pipes[i], ends[i]))
  }

  /** The connect requests for `pipes`, in order, as sent on `route`. */
  function Requests(route: RouteId, pipes: seq<PipeId>): (ms: seq<Outbound>)
    ensures |ms| == |pipes|
    ensures forall i :: 0 <= i < |ms| ==> ms[i] == Outbound(route, ConnectPipe(pipes[i]))
  {
    seq(|pipes|, i requires 0 <= i < |pipes| => Outbound(route, ConnectPipe(pipes[i])))
  }

  /** One more event after an outcome. */
  function Then(o: Outcome, e: Event): Outcome {
    match o
    case Crash(f) => Crash(f)
    case Done(t, out) =>
      match Step(t, e)
      case Crash(f) => Crash(f)
      case Done(u, more) => Done(u, out + more)
  }

  /** The rest of a run after an outcome. */
  function Continue(o: Outcome, rest: seq<Event>): Outcome {
    match o
    case Crash(f) => Crash(f)
    case Done(t, out) =>
      match Run(t, rest)
      case Crash(f) => Crash(f)
      case Done(u, more) => Done(u, out + more)
  }

  lemma RunCons(s: State, e: Event, rest: seq<Event>)
    ensures Run(s, [e] + rest) == Continue(Step(s, e), rest)
  {
    assert ([e] + rest)[0] == e;
    assert ([e] + rest)[1..] == rest;
  }

  /** Two events that emit nothing and do not crash, then a third: the run
      is the third step from the state the first two leave. */
  lemma QuietThenOne(s: State, e1: Event, e2: Event, e3: Event)
    requires Step(s, e1).Done? && Step(s, e1).effects == []
    requires Step(Step(s, e1).state, e2).Done? && Step(Step(s, e1).state, e2).effects == []
    ensures Run(s, [e1, e2, e3]) == Step(Step(Step(s, e1).state, e2).state, e3)
  {
    var a := Step(s, e1).state;
    var b := Step(a, e2).state;
    RunCons(s, e1, [e2, e3]);
    RunCons(a, e2, [e3]);
    RunCons(b, e3, []);
    assert [e1] + [e2, e3] == [e1, e2, e3];
    assert [e2] + [e3] == [e2, e3];
    assert [e3] + [] == [e3];
    var c := Step(b, e3);
    if c.Done? {
      assert Run(c.state, []) == Done(c.state, []);
      assert [] + ([] + (c.effects + [])) == c.effects;
    }
  }

  lemma {:induction false} RunSnoc(s: State, es: seq<Event>, e: Event)
    ensures Run(s, es + [e]) == Then(Run(s, es), e)
    decreases |es|
  {
    if es == [] {
      assert es + [e] == [e];
      assert [e][1..] == [];
    } else {
      var first := Step(s, es[0]);
      assert (es + [e])[0] == es[0];
      assert (es + [e])[1..] == es[1..] + [e];
      if first.Done? {
        RunSnoc(first.state, es[1..], e);
        var mid := Run(first.state, es[1..]);
        if mid.Done? {
          var last := Step(mid.state, e);
          if last.Done? {
            assert first.effects + (mid.effects + last.effects) == (first.effects + mid.effects) + last.effects;
          }
        }
      }
    }
  }

  lemma ConnectsCons(pipes: seq<PipeId>, ends: seq<Endpoint>)
    requires |pipes| == |ends| && pipes != []
    ensures Connects(pipes, ends) == [Connect(pipes[0], ends[0])] + Connects(pipes[1..], ends[1..])
  {
  }

  lemma RequestsCons(route: RouteId, pipes: seq<PipeId>)
    requires pipes != []
    ensures Requests(route, pipes) == [Outbound(route, ConnectPipe(pipes[0]))] + Requests(route, pipes[1..])
  {
  }

  lemma Assoc<T>(a: seq<T>, b: seq<T>, c: seq<T>)
    ensures (a + b) + c == a + (b + c)
  {
  }

  /** Fresh, pairwise different pipe ids stay so once the first is waiting. */
  lemma FreshTail(pipes: seq<PipeId>, before: map<PipeId, Endpoint>, after: map<PipeId, Endpoint>)
    requires pipes != [] && after.Keys == before.Keys + {pipes[0]}
    requires forall i :: 0 <= i < |pipes| ==> pipes[i] !in before
    requires forall i, j :: 0 <= i < j < |pipes| ==> pipes[i] != pipes[j]
    ensures forall i :: 0 <= i < |pipes[1..]| ==> pipes[1..][i] !in after
    ensures forall i, j :: 0 <= i < j < |pipes[1..]| ==> pipes[1..][i] != pipes[1..][j]
  {
    forall i | 0 <= i < |pipes[1..]|
      ensures pipes[1..][i] !in after
    {
      assert pipes[1..][i] == pipes[i + 1] != pipes[0];
    }
    forall i, j | 0 <= i < j < |pipes[1..]|
      ensures pipes[1..][i] != pipes[1..][j]
    {
      assert pipes[1..][i] == pipes[i + 1] && pipes[1..][j] == pipes[j + 1];
    }
  }

  /** What a run of connects for fresh pipe ids does before the parent
      channel exists: nothing is sent, one connect request per pipe id is
      queued in issue order, every pipe id waits with its endpoint, earlier
      waiting entries are kept and nothing else changes. */
  predicate QueuedInOrder(s: State, pipes: seq<PipeId>, ends: seq<Endpoint>, r: Outcome)
    requires |pipes| == |ends|
  {
    && r.Done? && r.effects == []
    && r.state.queue == s.queue + Requests(s.brokerRoute, pipes)
    && r.state == s.(pending := r.state.pending, queue := r.state.queue)
    && (forall q :: q in s.pending ==> q in r.state.pending && r.state.pending[q] == s.pending[q])
    && (forall i :: 0 <= i < |pipes| ==> pipes[i] in r.state.pending && r.state.pending[pipes[i]] == ends[i])
  }

  /** One connect in front of a queued run: the first request goes to the
      front of the queue and its pipe id waits too. */
  lemma QueuedInOrderCons(s: State, pipes: seq<PipeId>, ends: seq<Endpoint>, r: Outcome)
    requires |pipes| == |ends| && pipes != [] && pipes[0] !in s.pending
    requires QueuedInOrder(
      s.(pending := s.pending[pipes[0] := ends[0]],
         queue := s.queue + [Outbound(s.brokerRoute, ConnectPipe(pipes[0]))]),
      pipes[1..], ends[1..], r)
    ensures QueuedInOrder(s, pipes, ends, r)
  {
    RequestsCons(s.brokerRoute, pipes);
    var m := Outbound(s.brokerRoute, ConnectPipe(pipes[0]));
    var t := s.(pending := s.pending[pipes[0] := ends[0]], queue := s.queue + [m]);
    forall q | q in s.pending
      ensures q in r.state.pending && r.state.pending[q] == s.pending[q]
    {
      assert q in t.pending && t.pending[q] == s.pending[q];
    }
    Assoc(s.queue, [m], Requests(s.brokerRoute, pipes[1..]));
    forall i | 0 <= i < |pipes|
      ensures pipes[i] in r.state.pending && r.state.pending[pipes[i]] == ends[i]
    {
      if i > 0 {
        assert pipes[i] == pipes[1..][i - 1] && ends[i] == ends[1..][i - 1];
      }
    }
  }

  /** Connects for distinct, not yet waiting pipe ids issued before the
      parent channel exists are queued in issue order and sent nowhere. */
  lemma {:induction false} ConnectsQueueInOrder(s: State, pipes: seq<PipeId>, ends: seq<Endpoint>)
    requires s.parent.None? && |pipes| == |ends|
    requires forall i :: 0 <= i < |pipes| ==> pipes[i] !in s.pending
    requires forall i, j :: 0 <= i < j < |pipes| ==> pipes[i] != pipes[j]
    ensures QueuedInOrder(s, pipes, ends, Run(s, Connects(pipes, ends)))
    decreases |pipes|
  {
    if pipes == [] {
      assert Requests(s.brokerRoute, pipes) == [];
    } else {
      var e := Connect(pipes[0], ends[0]);
      var rest := Connects(pipes[1..], ends[1..]);
      ConnectsCons(pipes, ends);
      RunCons(s, e, rest);
      Properties.ConnectFirst(s, pipes[0], ends[0]);
      var t := Step(s, e).state;
      FreshTail(pipes, s.pending, t.pending);
      ConnectsQueueInOrder(t, pipes[1..], ends[1..]);
      var r := Run(t, rest);
      QueuedInOrderCons(s, pipes, ends, r);
      assert Run(s, Connects(pipes, ends)) == Done(r.state, [] + r.effects);
      assert [] + r.effects == r.effects;
    }
  }

  /** Once the parent channel opens, the parent sees the queued messages
      first, in the order the connects were issued. */
  lemma QueuedConnectsReachParentInOrder(s: State, pipes: seq<PipeId>, ends: seq<Endpoint>)
    requires s.parent.None? && |pipes| == |ends|
    requires forall i :: 0 <= i < |pipes| ==> pipes[i] !in s.pending
    requires forall i, j :: 0 <= i < j < |pipes| ==> pipes[i] != pipes[j]
    ensures var r := Run(s, Connects(pipes, ends) + [InitAsyncChannel]);
      && r.Done?
      && |s.queue| + |pipes| <= |Written(r.effects)|
      && Written(r.effects)[..|s.queue| + |pipes|] == s.queue + Requests(s.brokerRoute, pipes)
      && r.state.queue == [] && r.state.staged == map[]
      && r.state.parent.Some? && OnlyTo(r.effects, r.state.parent.value)
  {
    ConnectsQueueInOrder(s, pipes, ends);
    var es := Connects(pipes, ends);
    RunSnoc(s, es, InitAsyncChannel);
    var t := Run(s, es).state;
    assert Run(s, es) == Done(t, []);
    var u := InitAsync(t);
    assert Step(t, InitAsyncChannel) == u;
    assert Then(Run(s, es), InitAsyncChannel) == Done(u.state, [] + u.effects);
    assert [] + u.effects == u.effects;
    assert t.queue == s.queue + Requests(s.brokerRoute, pipes);
  }

  /** Two endpoints of one pipe in this process, parent channel up: the
      parent sees one connect and its cancel, and the endpoints are joined
      through the two in-process channels. */
  lemma SiblingsJoinLocally(s: State, pipe: PipeId, x: Endpoint, y: Endpoint)
    requires Inv(s) && s.parent.Some? && pipe !in s.pending && x != y
    ensures var r := Run(s, [Connect(pipe, x), Connect(pipe, y)]);
      && r.Done? && r.state.pair.Some?
      && Written(r.effects) == [Outbound(s.brokerRoute, ConnectPipe(pipe)), Outbound(s.brokerRoute, CancelConnect(pipe))]
      && OnlyTo(r.effects, s.parent.value)
      && x in r.state.connected && y in r.state.connected
      && r.state.connected[x] == r.state.pair.value.first
      && r.state.connected[y] == r.state.pair.value.second
      && r.state.pair.value.first != r.state.pair.value.second
      && pipe !in r.state.pending
  {
    Properties.ConnectFirst(s, pipe, x);
    var a := Step(s, Connect(pipe, x));
    StepKeeps(s, Connect(pipe, x));
    var b := Step(a.state, Connect(pipe, y));
    assert && b.Done? && b.state.pair.Some?
           && Written(b.effects) == [Outbound(s.brokerRoute, CancelConnect(pipe))]
           && OnlyTo(b.effects, s.parent.value)
           && b.state.connected[x] == b.state.pair.value.first
           && b.state.connected[y] == b.state.pair.value.second
           && b.state.pair.value.first != b.state.pair.value.second
           && b.state.pending == a.state.pending - {pipe}
    by {
      Properties.ConnectSibling(a.state, pipe, y);
    }
    assert [Connect(pipe, x), Connect(pipe, y)][1..] == [Connect(pipe, y)];
    assert [Connect(pipe, y)][1..] == [];
    assert Run(a.state, [Connect(pipe, y)]) == Done(b.state, b.effects + []);
    assert b.effects + [] == b.effects;
    WrittenAppend(a.effects, b.effects);
  }

  lemma StepInit(s: State)
    ensures Step(s, InitAsyncChannel) == InitAsync(s)
  {
  }

  lemma InitAsyncUnfold(s: State)
    ensures InitAsync(s) == Done(Replay(OpenParent(s)).state, OpenEffects(s) + Replay(OpenParent(s)).effects)
  {
  }

  lemma ReplayUnfold(s: State)
    requires s.parent.Some? && s.staged != map[]
    ensures var pipe := Keys.Least(s.staged.Keys);
      var first := ConnectLive(s, pipe, s.staged[pipe]);
      var next := first.state.(staged := first.state.staged - {pipe});
      Replay(s) == Done(Replay(next).state, first.effects + Replay(next).effects)
  {
  }

  /** Replaying a single staged connect for a waiting pipe is a local join. */
  lemma ReplayOne(s: State, pipe: PipeId, y: Endpoint)
    requires s.parent.Some? && s.staged == map[pipe := y] && pipe in s.pending
    ensures Replay(s) == Done(JoinLocal(s, pipe, y).state.(staged := map[]), JoinLocal(s, pipe, y).effects)
  {
    assert pipe in s.staged && s.staged.Keys == {pipe};
    ReplayUnfold(s);
    assert Keys.Least(s.staged.Keys) == pipe;
    var join := JoinLocal(s, pipe, y);
    assert ConnectLive(s, pipe, y) == join;
    var next := join.state.(staged := join.state.staged - {pipe});
    assert next.staged == map[];
    assert Replay(next) == Done(next, []);
    assert join.effects + [] == join.effects;
  }

  /** Opening the parent channel with one queued connect for `pipe` and a
      staged second endpoint for it: the connect is flushed, then the staged
      endpoint is joined locally with the waiting one behind a cancel. */
  lemma InitJoinsStaged(s: State, pipe: PipeId, x: Endpoint, y: Endpoint)
    requires s.parent.None? && s.pair.None? && x != y
    requires s.queue == [Outbound(s.brokerRoute, ConnectPipe(pipe))]
    requires s.staged == map[pipe := y] && pipe in s.pending && s.pending[pipe] == x
    ensures var r := InitAsync(s);
      && r.state.pair.Some?
      && Written(r.effects) == [Outbound(s.brokerRoute, ConnectPipe(pipe)), Outbound(s.brokerRoute, CancelConnect(pipe))]
      && x in r.state.connected && y in r.state.connected
      && r.state.connected[x] == r.state.pair.value.first
      && r.state.connected[y] == r.state.pair.value.second
      && r.state.pair.value.first != r.state.pair.value.second
      && pipe !in r.state.pending
  {
    InitStagedWrites(s, pipe, y);
    InitStagedJoins(s, pipe, x, y);
  }

  /** What opening the parent channel writes: the queue, then what the
      replay of staged connects writes. */
  lemma InitWritten(s: State)
    ensures Written(InitAsync(s).effects) == s.queue + Written(Replay(OpenParent(s)).effects)
  {
    var ch := Channel(s.nextChannel);
    var head := [CreateChannel(ch), AddRoute(ch, s.brokerRoute, BrokerSink)];
    InitAsyncUnfold(s);
    assert OpenEffects(s) == head + WritesTo(ch, s.queue);
    WrittenFlush(head, ch, s.queue, Replay(OpenParent(s)).effects);
  }

  /** Opening the parent channel joins locally each staged connect whose
      pipe id is still waiting: both endpoints end attached. */
  lemma InitJoinsWaiting(s: State)
    ensures var r := InitAsync(s).state;
      forall p :: p in s.staged && p in s.pending ==> s.pending[p] in r.connected && s.staged[p] in r.connected
  {
    InitAsyncUnfold(s);
    ReplayJoins(OpenParent(s));
  }

  /** After the flushed queue, opening the parent channel writes each staged
      pipe id's replay message: a cancel if it was waiting, else a connect. */
  lemma InitAnswersStaged(s: State)
    ensures forall p :: p in s.staged ==> ReplayMessage(s, p) in Written(InitAsync(s).effects)[|s.queue|..]
  {
    var o := OpenParent(s);
    var w := Written(Replay(o).effects);
    var x := Written(InitAsync(s).effects);
    InitWritten(s);
    assert x[|s.queue|..] == w;
    ReplayAnswers(o);
    forall p | p in s.staged
      ensures ReplayMessage(s, p) in x[|s.queue|..]
    {
      assert ReplayMessage(o, p) == ReplayMessage(s, p);
    }
  }

  /** Replaying a single staged connect for a waiting pipe writes one cancel. */
  lemma ReplayOneWritesCancel(s: State, pipe: PipeId, y: Endpoint)
    requires s.parent.Some? && s.staged == map[pipe := y] && pipe in s.pending
    ensures Written(Replay(s).effects) == [Outbound(s.brokerRoute, CancelConnect(pipe))]
  {
    ReplayOne(s, pipe, y);
  }

  lemma InitStagedWrites(s: State, pipe: PipeId, y: Endpoint)
    requires s.parent.None? && s.queue == [Outbound(s.brokerRoute, ConnectPipe(pipe))]
    requires s.staged == map[pipe := y] && pipe in s.pending
    ensures Written(InitAsync(s).effects) ==
      [Outbound(s.brokerRoute, ConnectPipe(pipe)), Outbound(s.brokerRoute, CancelConnect(pipe))]
  {
    InitWritten(s);
    ReplayOneWritesCancel(OpenParent(s), pipe, y);
  }

  lemma InitStagedJoins(s: State, pipe: PipeId, x: Endpoint, y: Endpoint)
    requires s.parent.None? && s.pair.None? && x != y
    requires s.staged == map[pipe := y] && pipe in s.pending && s.pending[pipe] == x
    ensures var r := InitAsync(s);
      && r.state.pair.Some?
      && x in r.state.connected && y in r.state.connected
      && r.state.connected[x] == r.state.pair.value.first
      && r.state.connected[y] == r.state.pair.value.second
      && r.state.pair.value.first != r.state.pair.value.second
      && pipe !in r.state.pending
  {
    var live := OpenParent(s);
    ReplayOne(live, pipe, y);
    InitAsyncUnfold(s);
  }

  /** The same two endpoints before the parent channel exists: the second
      connect waits, and once the channel opens the parent sees the queued
      connect followed by its cancel, and the endpoints are joined locally. */
  lemma SiblingsBeforeParentJoinAfterInit(route: RouteId, pipe: PipeId, x: Endpoint, y: Endpoint)
    requires x != y
    ensures var r := Run(Initial(route), [Connect(pipe, x), Connect(pipe, y), InitAsyncChannel]);
      && r.Done? && r.state.pair.Some?
      && Written(r.effects) == [Outbound(route, ConnectPipe(pipe)), Outbound(route, CancelConnect(pipe))]
      && r.state.parent.Some? && OnlyTo(r.effects, r.state.parent.value)
      && x in r.state.connected && y in r.state.connected
      && r.state.connected[x] == r.state.pair.value.first
      && r.state.connected[y] == r.state.pair.value.second
      && r.state.pair.value.first != r.state.pair.value.second
      && pipe !in r.state.pending && r.state.staged == map[] && r.state.queue == []
  {
    var s0 := Initial(route);
    Properties.ConnectFirst(s0, pipe, x);
    var a := Step(s0, Connect(pipe, x));
    assert a.state == s0.(pending := map[pipe := x], queue := [Outbound(route, ConnectPipe(pipe))]);
    Properties.ConnectStaged(a.state, pipe, y);
    var b := Step(a.state, Connect(pipe, y));
    QuietThenOne(s0, Connect(pipe, x), Connect(pipe, y), InitAsyncChannel);
    StepInit(b.state);
    InitJoinsStaged(b.state, pipe, x, y);
  }
}
