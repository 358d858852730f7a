/**
 * Sequences of dispatcher operations as a caller would issue them. The
 * caller catches `Closed` and `queue.Empty` and carries on; a call that
 * blocks never returns, so a run ends there.
 */
module Session {
  import opened Channel
  import L = Listeners
  import D = Dispatcher
  import Loops

  /** Every public operation of the sending and receiving ends. */
  datatype Op =
    | Fire(signal: string, args: seq<Value>, kwargs: Kwargs)
    | SenderClose
    | ReceiverClose
    | Connect(signal: string, cb: L.ListenerId)
    | HandleNext(mode: D.ReadMode, via: D.CallVia)
    | HandleUntilBlocking
    | HandleUntilClosed(via: D.CallVia)
    | CoroHandleNext(mode: D.ReadMode)
    | CoroHandleUntilClosed

  /** Is `op` a consumption operation (one that may read the channel)? */
  predicate Consumes(op: Op)
  {
    op.HandleNext? || op.HandleUntilBlocking? || op.HandleUntilClosed?
    || op.CoroHandleNext? || op.CoroHandleUntilClosed?
  }

  /**
   * One operation. Senders and `connect` never touch the flag; once the flag
   * is set, no operation clears it, reads the channel or calls a listener.
   */
  function Apply(s: D.State, op: Op): (r: D.Step)
    ensures s.closed ==> r.state.closed
    ensures s.closed ==>
      && r.calls == [] && r.scheduled == [] && r.outcome != D.Blocked
      && |s.queue| <= |r.state.queue| && r.state.queue[..|s.queue|] == s.queue
    ensures !Consumes(op) ==> r.state.closed == s.closed && r.calls == [] && r.outcome == D.Returned
    ensures !op.Connect? ==> r.state.listeners == s.listeners
  {
    match op
    case Fire(signal, args, kwargs) => D.Step(D.Fire(s, signal, args, kwargs), [], [], D.Returned)
    case SenderClose => D.Step(D.SenderClose(s), [], [], D.Returned)
    case ReceiverClose => D.Step(D.ReceiverClose(s), [], [], D.Returned)
    case Connect(signal, cb) => D.Step(D.ConnectListener(s, signal, cb), [], [], D.Returned)
    case HandleNext(mode, via) => D.HandleNext(s, mode, via)
    case HandleUntilBlocking => D.HandleUntilBlocking(s)
    case HandleUntilClosed(via) => D.HandleUntilClosed(s, via)
    case CoroHandleNext(mode) =>
      assert s.closed ==> D.CoroHandleNext(s, mode) == D.HandleNext(s, mode, D.Inline);
      D.CoroHandleNext(s, mode)
    case CoroHandleUntilClosed => D.CoroHandleUntilClosed(s)
  }

  /** `first` followed by `second`: the later state and outcome, the calls and schedulings of both in order. */
  function Then(first: D.Step, second: D.Step): D.Step
  {
    D.Step(second.state, first.calls + second.calls, first.scheduled + second.scheduled, second.outcome)
  }

  /** A run of operations, each performed by `step`, stopping at the first one that blocks. */
  function RunWith(step: (D.State, Op) -> D.Step, s: D.State, ops: seq<Op>): D.Step
    decreases |ops|
  {
    if ops == [] then D.Step(s, [], [], D.Returned)
    else
      var r := step(s, ops[0]);
      if r.outcome == D.Blocked then r
      else Then(r, RunWith(step, r.state, ops[1..]))
  }

  /** A run of the dispatcher's own operations. */
  function Run(s: D.State, ops: seq<Op>): D.Step
  {
    RunWith(Apply, s, ops)
  }

  /** The closed flag is monotonic: whatever runs after it is set, it stays set. */
  lemma {:induction false} ClosedFlagIsMonotonic(s: D.State, ops: seq<Op>)
    requires s.closed
    ensures Run(s, ops).state.closed
    decreases |ops|
  {
    if ops != [] {
      ClosedFlagIsMonotonic(Apply(s, ops[0]).state, ops[1..]);
    }
  }

  /**
   * A closed receiver never again reads or dispatches: whatever runs, no
   * listener is called or scheduled, nothing blocks, and the channel only grows.
   */
  lemma {:induction false} ClosedReceiverNeverConsumes(s: D.State, ops: seq<Op>)
    requires s.closed
    ensures Run(s, ops).calls == [] && Run(s, ops).scheduled == []
    ensures Run(s, ops).outcome == D.Returned
    ensures |s.queue| <= |Run(s, ops).state.queue|
    ensures Run(s, ops).state.queue[..|s.queue|] == s.queue
    decreases |ops|
  {
    if ops != [] {
      var r := Apply(s, ops[0]);
      ClosedReceiverNeverConsumes(r.state, ops[1..]);
      var t := Run(r.state, ops[1..]).state.queue;
      assert t[..|s.queue|] == t[..|r.state.queue|][..|s.queue|];
    }
  }

  /** The `fire` calls that put the given events on the channel, in order. */
  function Fires(events: seq<Entry>): (ops: seq<Op>)
    requires Close !in events
    ensures |ops| == |events|
  {
    if events == [] then []
    else [Fire(events[0].signal, events[0].args, events[0].kwargs)] + Fires(events[1..])
  }

  /** Firing a run of events appends them to the channel in order and does nothing else. */
  lemma {:induction false} FiresAppend(s: D.State, events: seq<Entry>)
    requires Close !in events
    ensures Run(s, Fires(events)) == D.Step(s.(queue := s.queue + events), [], [], D.Returned)
    decreases |events|
  {
    if events != [] {
      var ops := Fires(events);
      assert ops[0] == Fire(events[0].signal, events[0].args, events[0].kwargs);
      assert ops[1..] == Fires(events[1..]);
      var s1 := Apply(s, ops[0]).state;
      assert s1 == s.(queue := s.queue + [events[0]]);
      FiresAppend(s1, events[1..]);
      assert s1.queue + events[1..] == s.queue + events;
    }
  }

  /** Running `a` and then `b` is running `a + b`, unless `a` blocked; for any way of performing each operation. */
  lemma {:induction false} RunAppend(step: (D.State, Op) -> D.Step, s: D.State, a: seq<Op>, b: seq<Op>)
    requires RunWith(step, s, a).outcome != D.Blocked
    ensures RunWith(step, s, a + b) == Then(RunWith(step, s, a), RunWith(step, RunWith(step, s, a).state, b))
    decreases |a|
  {
    if a == [] {
      assert a + b == b;
    } else {
      var r := step(s, a[0]);
      var ab := a + b;
      assert ab[0] == a[0];
      assert ab[1..] == a[1..] + b;
      RunAppend(step, r.state, a[1..], b);
    }
  }

  /** Closing and then looping until closed, as one run. */
  lemma CloseThenLoop(s: D.State)
    ensures Run(s, [SenderClose, HandleUntilClosed(D.Inline)])
      == Then(D.Step(D.SenderClose(s), [], [], D.Returned), D.HandleUntilClosed(D.SenderClose(s), D.Inline))
  {
  }

  /**
   * End to end: a fresh receiver with registry `reg`; one producer fires a
   * run of events and closes; `handle_until_closed` then calls the listeners
   * of each event in firing order with that event's arguments, and returns
   * normally with the flag set and the channel empty.
   */
  lemma FiredThenClosedIsDispatchedInOrder(reg: L.Registry, events: seq<Entry>)
    requires Close !in events
    ensures Run(D.State([], reg, false), Fires(events) + [SenderClose, HandleUntilClosed(D.Inline)])
      == D.Step(D.State([], reg, true), L.Trace(reg, events), [], D.Returned)
  {
    var s := D.State([], reg, false);
    var tail := [SenderClose, HandleUntilClosed(D.Inline)];
    FiresAppend(s, events);
    RunAppend(Apply, s, Fires(events), tail);
    var queued := D.State(events, reg, false);
    assert s.(queue := s.queue + events) == queued;
    CloseThenLoop(queued);
    var closing := D.SenderClose(queued);
    assert closing.queue == events + [Close] + [];
    Loops.UntilClosedStopsAtFirstClose(closing, D.Inline, events, []);
  }
}
