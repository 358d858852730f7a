/**
 * Concrete runs of the dispatcher: the repository's own test scenario and
 * the scenarios its documentation describes.
 */
module Scenarios {
  import opened Channel
  import opened Listeners
  import opened Dispatcher
  import Loops

  const cb := ListenerId("cb")

  /** `fire("cb", n)`: one positional argument, no keyword arguments. */
  function FireCb(s: State, n: int): State
  {
    Fire(s, CbEvent(n).signal, CbEvent(n).args, CbEvent(n).kwargs)
  }

  /** The event record put by `fire("cb", n)`. */
  function CbEvent(n: int): Entry
  {
    Event("cb", [IntValue(n)], map[])
  }

  /** The call `cb(n)`. */
  function CbCall(n: int): Call
  {
    Call(cb, [IntValue(n)], map[])
  }

  /**
   * A receiver connected to "cb" and a sender that fires `("cb", 54)`: one
   * `handle_next(timeout=2)` calls `cb` once with 54 and leaves the channel empty.
   */
  lemma ReceiveSingleEvent()
    ensures var s := FireCb(ConnectListener(Initial, "cb", cb), 54);
      && HandleNext(s, TimedBlocking, Inline).calls == [CbCall(54)]
      && HandleNext(s, TimedBlocking, Inline).outcome == Returned
      && HandleNext(s, TimedBlocking, Inline).state.queue == []
  {
  }

  /** With nothing fired, the same timed read raises `queue.Empty` and calls no one. */
  lemma TimedReadOfEmptyChannel()
    ensures var s := ConnectListener(Initial, "cb", cb);
      HandleNext(s, TimedBlocking, Inline) == Step(s, [], [], Raised(Empty))
  {
  }

  /**
   * `fire` of 43, 54 and 87 followed by `close()`: `handle_until_closed`
   * calls `cb` three times with those payloads in that order, then returns
   * with the flag set.
   */
  lemma ThreeEventsThenClose()
    ensures var s := SenderClose(FireCb(FireCb(FireCb(ConnectListener(Initial, "cb", cb), 43), 54), 87));
      && HandleUntilClosed(s, Inline).calls == [CbCall(43), CbCall(54), CbCall(87)]
      && HandleUntilClosed(s, Inline).outcome == Returned
      && HandleUntilClosed(s, Inline).state.closed
  {
    var s0 := ConnectListener(Initial, "cb", cb);
    var s := SenderClose(FireCb(FireCb(FireCb(s0, 43), 54), 87));
    var events := [CbEvent(43), CbEvent(54), CbEvent(87)];
    assert s.queue == events + [Close] + [];
    Loops.UntilClosedStopsAtFirstClose(s, Inline, events, []);
    assert s.listeners["cb"] == [cb];
    CbTrace(s.listeners, 43, 54, 87);
  }

  /** With only `cb` connected to "cb", three `cb` events trace as three `cb` calls in order. */
  lemma CbTrace(reg: Registry, a: int, b: int, c: int)
    requires "cb" in reg && reg["cb"] == [cb]
    ensures Trace(reg, [CbEvent(a), CbEvent(b), CbEvent(c)]) == [CbCall(a), CbCall(b), CbCall(c)]
  {
    var es := [CbEvent(a), CbEvent(b), CbEvent(c)];
    assert es[1..] == [CbEvent(b), CbEvent(c)];
    assert es[1..][1..] == [CbEvent(c)];
    assert es[1..][1..][1..] == [];
    assert Dispatch(reg, CbEvent(a)) == [CbCall(a)];
    assert Dispatch(reg, CbEvent(b)) == [CbCall(b)];
    assert Dispatch(reg, CbEvent(c)) == [CbCall(c)];
    assert Trace(reg, es[1..][1..]) == [CbCall(c)];
    assert Trace(reg, es[1..]) == [CbCall(b), CbCall(c)];
  }

  /** An event whose signal nobody connected to is dropped without error. */
  lemma UnconnectedSignalIsNoOp()
    ensures var s := Fire(ConnectListener(Initial, "cb", cb), "other", [IntValue(1)], map[]);
      && HandleNext(s, Blocking, Inline).calls == []
      && HandleNext(s, Blocking, Inline).outcome == Returned
      && HandleNext(s, Blocking, Inline).state == s.(queue := [])
  {
  }

  /**
   * Three queued events and nothing else: `handle_until_blocking` dispatches
   * all three and returns normally without blocking.
   */
  lemma DrainThreeEvents()
    ensures var s := FireCb(FireCb(FireCb(ConnectListener(Initial, "cb", cb), 1), 2), 3);
      && HandleUntilBlocking(s).outcome == Returned
      && HandleUntilBlocking(s).calls == [CbCall(1), CbCall(2), CbCall(3)]
      && HandleUntilBlocking(s).state.queue == []
  {
    var s := FireCb(FireCb(FireCb(ConnectListener(Initial, "cb", cb), 1), 2), 3);
    assert s.queue == [CbEvent(1), CbEvent(2), CbEvent(3)];
    Loops.UntilBlockingDrainsEvents(s);
    CbTrace(s.listeners, 1, 2, 3);
  }

  /**
   * Two close sentinels: the first stops `handle_until_closed`, the second
   * stays in the channel, and a later `handle_next` raises `Closed` without reading it.
   */
  lemma SecondCloseIsNeverRead()
    ensures var s := ReceiverClose(SenderClose(Initial));
      var r := HandleUntilClosed(s, Inline);
      && r.outcome == Returned && r.state.queue == [Close]
      && HandleNext(r.state, Blocking, Inline) == Step(r.state, [], [], Raised(Closed))
  {
  }
}
