/**
 * The Node back end's message bus: the `messageEvents` emitter exported by
 * apps/server/src/lib/whatsapp/client.ts, and the per-stream state that each
 * `messagesSSE` generator of apps/server/src/routers/whatsapp.ts keeps (its
 * `queue`, its `resolve` waiter, the listener it registers and removes).
 *
 * A generator body runs only from its first `next()`: until then the stream is
 * not `started`, and its listener is not registered. The generator's suspension at
 * `await new Promise(r => resolve = r)` is the `waiting` flag. A consumer request
 * that found the queue empty stays `outstanding`, through the wake-up, until a later
 * `Pull` resumes it and hands it the message.
 */
module EventBus {
  import opened WebJs

  /** What one resumption of a `messagesSSE` generator gives its consumer. */
  datatype Pulled = Yielded(message: Message) | Suspended | Done

  /** One `messagesSSE` stream: the generator's local state. */
  class Subscription {
    /** `queue`: messages pushed by the listener, not yet yielded. */
    var queue: seq<Message>
    /** The first `next()` has run the body up to the loop: the listener is registered. */
    var started: bool
    /** `resolve` is set: the generator is suspended waiting for a message. */
    var waiting: bool
    /** A `next()` found the queue empty and has not been answered yet. */
    var outstanding: bool
    /** `return()` was requested while a `next()` was outstanding; it is queued behind that `next()`. */
    var cancelPending: bool
    /** The `finally` block has run: the listener is removed and the stream is done. */
    var closed: bool
    /** The emitter the listener is registered on. */
    const bus: MessageBus

    constructor (bus: MessageBus)
      ensures this.bus == bus
      ensures queue == [] && !started && !waiting && !outstanding && !cancelPending && !closed
    {
      this.bus := bus;
      queue := [];
      started := false;
      waiting := false;
      outstanding := false;
      cancelPending := false;
      closed := false;
    }

    /** The listener closure: `queue.push(message)`, then wake and clear the waiter. */
    method Deliver(m: Message)
      modifies this`queue, this`waiting
      ensures queue == old(queue) + [m]
      ensures !waiting
    {
      queue := queue + [m];
      if waiting {
        waiting := false;
      }
    }
  }

  /** `listeners` without `s` (EventEmitter.removeListener; a listener is registered at most once). */
  function Without(listeners: seq<Subscription>, s: Subscription): (r: seq<Subscription>)
    ensures forall i :: 0 <= i < |r| ==> r[i] in listeners && r[i] != s
    ensures forall i :: 0 <= i < |listeners| && listeners[i] != s ==> listeners[i] in r
    ensures |r| <= |listeners|
    ensures (forall i, j :: 0 <= i < j < |listeners| ==> listeners[i] != listeners[j]) ==>
              (forall i, j :: 0 <= i < j < |r| ==> r[i] != r[j])
  {
    if listeners == [] then []
    else if listeners[0] == s then Without(listeners[1..], s)
    else [listeners[0]] + Without(listeners[1..], s)
  }

  /** The `newMessage` channel of `messageEvents` with its registered stream listeners. */
  class MessageBus {
    /** Registered listeners, in registration order. */
    var listeners: seq<Subscription>
    /** Every stream ever opened on this bus. */
    ghost var subscriptions: set<Subscription>

    /**
     * A listener is registered exactly while its stream is not finished; only an empty
     * queue is waited on; an outstanding request that is no longer waiting has been
     * woken by a message; a cancellation is pending only behind an outstanding request.
     */
    ghost predicate Valid()
      reads this, subscriptions
    {
      && (forall i, j :: 0 <= i < j < |listeners| ==> listeners[i] != listeners[j])
      && (forall s :: s in listeners ==> s in subscriptions)
      && (forall s :: s in subscriptions ==>
            && s.bus == this
            && (s in listeners <==> s.started && !s.closed)
            && (!s.started ==> s.queue == [] && !s.waiting && !s.outstanding && !s.cancelPending)
            && (s.waiting ==> s.queue == [] && s.outstanding)
            && (s.outstanding ==> !s.closed && (s.waiting || s.queue != []))
            && (s.cancelPending ==> s.outstanding))
    }

    constructor ()
      ensures Valid() && listeners == [] && subscriptions == {}
    {
      listeners := [];
      subscriptions := {};
    }

    /**
     * Calling the `messagesSSE` handler: a generator is created, but its body has not
     * run, so no listener is registered yet and nothing emitted now reaches it.
     */
    method Subscribe() returns (s: Subscription)
      requires Valid()
      modifies this
      ensures Valid() && fresh(s) && s.bus == this
      ensures listeners == old(listeners)
      ensures subscriptions == old(subscriptions) + {s}
      ensures s.queue == [] && !s.started && !s.waiting && !s.outstanding && !s.closed && !s.cancelPending
    {
      s := new Subscription(this);
      subscriptions := subscriptions + {s};
    }

    /**
     * `messageEvents.emit("newMessage", m)`: every registered stream, and no other,
     * gets `m` at the tail of its own queue, and a waiting stream is woken.
     */
    method Emit(m: Message)
      requires Valid()
      modifies listeners
      ensures Valid()
      ensures forall s :: s in listeners ==>
                && s.queue == old(s.queue) + [m]
                && !s.waiting
                && s.closed == old(s.closed)
                && s.outstanding == old(s.outstanding)
                && s.cancelPending == old(s.cancelPending)
    {
      var i := 0;
      while i < |listeners|
        invariant 0 <= i <= |listeners|
        invariant forall j :: 0 <= j < i ==>
                    listeners[j].queue == old(listeners[j].queue) + [m] && !listeners[j].waiting
        invariant forall j :: i <= j < |listeners| ==>
                    listeners[j].queue == old(listeners[j].queue) && listeners[j].waiting == old(listeners[j].waiting)
        invariant forall s :: s in listeners ==>
                    && s.closed == old(s.closed) && s.cancelPending == old(s.cancelPending)
                    && s.started == old(s.started) && s.outstanding == old(s.outstanding)
      {
        listeners[i].Deliver(m);
        i := i + 1;
      }
    }

    /**
     * One `next()` on stream `s`. The first one runs the body: it registers the
     * listener last and, the queue being empty, suspends. Later ones take one turn of
     * the loop: yield the head of a non-empty queue, answering any outstanding
     * request, otherwise suspend. A cancellation queued behind an outstanding request
     * takes effect right after the yield that answers it: the `finally` block removes
     * the listener.
     */
    method Pull(s: Subscription) returns (r: Pulled)
      requires Valid() && s in subscriptions
      modifies this, s
      ensures Valid() && subscriptions == old(subscriptions)
      ensures old(s.closed) ==> r == Done && listeners == old(listeners) && unchanged(s)
      ensures !old(s.closed) && !old(s.started) ==>
                && r == Suspended && s.started && s.waiting && s.outstanding && s.queue == []
                && !s.closed && !s.cancelPending
                && listeners == old(listeners) + [s]
      ensures !old(s.closed) && old(s.started) && old(s.queue) != [] ==>
                && r == Yielded(old(s.queue)[0])
                && s.queue == old(s.queue)[1..]
                && !s.waiting && !s.outstanding && !s.cancelPending
                && (s.closed <==> old(s.cancelPending))
                && listeners == if old(s.cancelPending) then Without(old(listeners), s) else old(listeners)
      ensures !old(s.closed) && old(s.started) && old(s.queue) == [] ==>
                && r == Suspended && s.waiting && s.outstanding && s.queue == [] && !s.closed
                && s.cancelPending == old(s.cancelPending)
                && listeners == old(listeners)
    {
      if s.closed {
        return Done;
      }
      if !s.started {
        s.started := true;
        listeners := listeners + [s];
        s.waiting := true;
        s.outstanding := true;
        r := Suspended;
      } else if |s.queue| > 0 {
        r := Yielded(s.queue[0]);
        s.queue := s.queue[1..];
        s.outstanding := false;
        if s.cancelPending {
          s.cancelPending := false;
          s.closed := true;
          listeners := Without(listeners, s);
        }
      } else {
        s.waiting := true;
        s.outstanding := true;
        r := Suspended;
      }
    }

    /**
     * The consumer walks away (`return()` on the generator). Before the first `next()`
     * the generator just completes: there is no listener to remove. At a yield with
     * no request outstanding the `finally` block runs at once. Behind an outstanding
     * request, suspended or already woken, the return waits until that request has
     * been answered. Cancelling a finished stream, or one already asked to finish,
     * does nothing.
     */
    method Cancel(s: Subscription)
      requires Valid() && s in subscriptions
      modifies this, s
      ensures Valid() && subscriptions == old(subscriptions)
      ensures s.queue == old(s.queue) && s.waiting == old(s.waiting) && s.outstanding == old(s.outstanding)
      ensures s.started == old(s.started)
      ensures old(s.closed) || old(s.cancelPending) ==> unchanged(s) && listeners == old(listeners)
      ensures !old(s.closed) && !old(s.started) ==>
                s.closed && !s.cancelPending && listeners == old(listeners)
      ensures !old(s.closed) && !old(s.cancelPending) && old(s.outstanding) ==>
                s.cancelPending && !s.closed && listeners == old(listeners)
      ensures !old(s.closed) && old(s.started) && !old(s.cancelPending) && !old(s.outstanding) ==>
                s.closed && !s.cancelPending && listeners == Without(old(listeners), s)
    {
      if s.closed || s.cancelPending {
        return;
      }
      if !s.started {
        s.closed := true;
      } else if s.outstanding {
        s.cancelPending := true;
      } else {
        s.closed := true;
        listeners := Without(listeners, s);
      }
    }
  }
}
