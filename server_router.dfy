/**
 * The streaming procedures and the send command of the Node back end
 * (apps/server/src/routers/whatsapp.ts).
 *
 * `qrCodeSSE` and `isReadySSE` poll the snapshot: each round yields a value and
 * then returns if `isReady` holds. The timer between rounds is left out, and so
 * is the snapshot's evolution: a run is given as the sequence of values each
 * round would observe, at the yield and at the readiness check.
 */
module ServerRouter {
  import opened Wrappers
  import opened WebJs
  import opened EventBus

  /** What one polling round observes: the value it yields, and `isReady` when it checks afterwards. */
  datatype Round<T> = Round(yielded: T, readyAtCheck: bool)

  /** The index of the first round whose readiness check succeeds, if any. */
  function FirstReady<T>(rounds: seq<Round<T>>): (r: Option<nat>)
    ensures r.Some? ==> r.value < |rounds| && rounds[r.value].readyAtCheck
    ensures r.Some? ==> forall k :: 0 <= k < r.value ==> !rounds[k].readyAtCheck
    ensures r.None? ==> forall k :: 0 <= k < |rounds| ==> !rounds[k].readyAtCheck
  {
    if rounds == [] then None
    else if rounds[0].readyAtCheck then Some(0)
    else match FirstReady(rounds[1..])
      case None => None
      case Some(k) => Some(k + 1)
  }

  /**
   * The `while (true) { yield …; if (isReady) return; }` loop shared by both polling
   * procedures, run over the rounds it gets to observe. It yields once per round and
   * returns right after the first round whose check sees `isReady`.
   */
  method PollUntilReady<T>(rounds: seq<Round<T>>) returns (out: seq<T>, returned: bool)
    ensures returned <==> FirstReady(rounds).Some?
    ensures returned ==> |out| == FirstReady(rounds).value + 1
    ensures !returned ==> |out| == |rounds|
    ensures forall k :: 0 <= k < |out| ==> out[k] == rounds[k].yielded
  {
    out := [];
    returned := false;
    var i := 0;
    while i < |rounds|
      invariant 0 <= i <= |rounds|
      invariant |out| == i
      invariant forall k :: 0 <= k < i ==> out[k] == rounds[k].yielded && !rounds[k].readyAtCheck
    {
      out := out + [rounds[i].yielded];
      if rounds[i].readyAtCheck {
        returned := true;
        return;
      }
      i := i + 1;
    }
  }

  /**
   * `qrCodeSSE`: yields the current QR code (possibly none) every round, and stops
   * only after a round whose check finds the client ready.
   */
  method QrCodeSSE(rounds: seq<Round<Option<string>>>) returns (codes: seq<Option<string>>, returned: bool)
    ensures |codes| <= |rounds|
    ensures forall k :: 0 <= k < |codes| ==> codes[k] == rounds[k].yielded
    ensures returned <==> exists k :: 0 <= k < |rounds| && rounds[k].readyAtCheck
    ensures returned ==> 0 < |codes| && rounds[|codes| - 1].readyAtCheck
    ensures forall k :: 0 <= k < |codes| - 1 ==> !rounds[k].readyAtCheck
    ensures !returned ==> |codes| == |rounds|
  {
    codes, returned := PollUntilReady(rounds);
  }

  /**
   * `isReadySSE`: yields the readiness flag every round and never returns while the
   * flag stays false.
   */
  method IsReadySSE(rounds: seq<Round<bool>>) returns (flags: seq<bool>, returned: bool)
    ensures |flags| <= |rounds|
    ensures forall k :: 0 <= k < |flags| ==> flags[k] == rounds[k].yielded
    ensures returned <==> exists k :: 0 <= k < |rounds| && rounds[k].readyAtCheck
    ensures returned ==> 0 < |flags| && rounds[|flags| - 1].readyAtCheck
    ensures forall k :: 0 <= k < |flags| - 1 ==> !rounds[k].readyAtCheck
    ensures (forall k :: 0 <= k < |rounds| ==> !rounds[k].readyAtCheck) ==> !returned && |flags| == |rounds|
  {
    flags, returned := PollUntilReady(rounds);
  }

  /**
   * `messagesSSE` from the consumer's side: pulling repeatedly hands out everything
   * queued, in publish order, and then suspends. A stream not yet started registers
   * its listener on the first pull and has nothing to hand out.
   */
  method Drain(bus: MessageBus, s: Subscription) returns (got: seq<Message>)
    requires bus.Valid() && s in bus.subscriptions && !s.closed && !s.cancelPending
    modifies bus, s
    ensures bus.Valid()
    ensures bus.listeners == if old(s.started) then old(bus.listeners) else old(bus.listeners) + [s]
    ensures got == old(s.queue)
    ensures s.queue == [] && s.started && s.waiting && !s.closed
  {
    got := [];
    while true
      invariant bus.Valid() && s in bus.subscriptions && !s.closed && !s.cancelPending
      invariant s.started == old(s.started)
      invariant bus.listeners == old(bus.listeners)
      invariant got + s.queue == old(s.queue)
      decreases |s.queue|
    {
      var r := bus.Pull(s);
      if r.Suspended? {
        return;
      }
      got := got + [r.message];
    }
  }

  /**
   * `sendMessage`: the upstream send either fails (nothing is emitted and the error
   * propagates) or returns the sent message, which is emitted once on the bus and
   * returned unchanged.
   */
  method SendMessage(bus: MessageBus, upstream: Option<Message>) returns (r: Option<Message>)
    requires bus.Valid()
    modifies bus.listeners
    ensures bus.Valid()
    ensures r == upstream
    ensures upstream.Some? ==>
              forall s :: s in bus.listeners ==> s.queue == old(s.queue) + [upstream.value] && !s.waiting
    ensures upstream.None? ==> forall s :: s in bus.listeners ==> s.queue == old(s.queue) && s.waiting == old(s.waiting)
  {
    if upstream.Some? {
      bus.Emit(upstream.value);
    }
    r := upstream;
  }

  /**
   * A message emitted after the handler is called but before the first pull reaches
   * no listener: the first pull registers the listener and suspends, and only a
   * later emission is handed out.
   */
  method MessageBeforeFirstPullIsLost(m: Message, later: Message) returns (first: Pulled, second: Pulled)
    ensures first == Suspended
    ensures second == Yielded(later)
  {
    var bus := new MessageBus();
    var s := bus.Subscribe();
    bus.Emit(m);
    first := bus.Pull(s);
    bus.Emit(later);
    second := bus.Pull(s);
  }

  /** Two streams, both pulled once, after which `m` is emitted: each holds `m`. */
  method OpenTwoStreams(m: Message) returns (bus: MessageBus, g: Subscription, t: Subscription)
    ensures fresh(bus) && fresh(g) && fresh(t) && g != t
    ensures bus.Valid() && g in bus.subscriptions && t in bus.subscriptions
    ensures bus.listeners == [g, t]
    ensures g.queue == [m] && t.queue == [m]
    ensures g.started && !g.waiting && !g.closed && !g.cancelPending
  {
    bus := new MessageBus();
    g := bus.Subscribe();
    t := bus.Subscribe();
    var r := bus.Pull(g);
    r := bus.Pull(t);
    assert bus.listeners == [g, t] && g.queue == [] && t.queue == [];
    bus.Emit(m);
  }

  /**
   * A stream cancelled at a yield is deregistered at once: a later emission leaves
   * its queue as it was, while a stream still registered receives it.
   */
  method CancelledStreamReceivesNothing(m: Message, later: Message) returns (gone: seq<Message>, stays: seq<Message>)
    ensures gone == []
    ensures stays == [m, later]
  {
    var bus, g, t := OpenTwoStreams(m);
    var r := bus.Pull(g);
    assert [g, t][1..] == [t] && Without([t], g) == [t];
    bus.Cancel(g);
    assert bus.listeners == [t];
    bus.Emit(later);
    gone, stays := g.queue, t.queue;
  }

  /**
   * A stream cancelled while suspended stays registered until the next emission,
   * hands that message to its outstanding request, and is deregistered right after.
   */
  method CancelWhileSuspendedWaitsForOneMessage(m: Message, later: Message)
    returns (handed: Pulled, registered: nat, left: seq<Message>)
    ensures handed == Yielded(m)
    ensures registered == 0
    ensures left == []
  {
    var bus := new MessageBus();
    var s := bus.Subscribe();
    var r := bus.Pull(s);
    bus.Cancel(s);
    assert s.cancelPending && bus.listeners == [s];
    bus.Emit(m);
    handed := bus.Pull(s);
    registered := |bus.listeners|;
    bus.Emit(later);
    left := s.queue;
  }

  /**
   * A stream cancelled after a message woke it, but before its outstanding request
   * resumed, still hands that message to the request; only then does it finish,
   * and a further pull finds it done.
   */
  method CancelAfterWakeUpStillHandsOver(m: Message) returns (handed: Pulled, registered: nat, after: Pulled)
    ensures handed == Yielded(m)
    ensures registered == 0
    ensures after == Done
  {
    var bus := new MessageBus();
    var s := bus.Subscribe();
    var r := bus.Pull(s);
    bus.Emit(m);
    assert s.queue == [m] && s.outstanding && !s.waiting;
    bus.Cancel(s);
    assert s.cancelPending && bus.listeners == [s];
    handed := bus.Pull(s);
    registered := |bus.listeners|;
    after := bus.Pull(s);
  }
}
