/**
 * Properties of the consumption loops: FIFO dispatch up to the first close
 * sentinel, the non-blocking drain, the coroutine forms agreeing with the
 * blocking ones, and adapter-deferred dispatch agreeing with inline dispatch.
 */
module Loops {
  import opened Channel
  import opened Listeners
  import opened Dispatcher

  /** In `events + [Close] + rest` with no sentinel among `events`, the first sentinel is the one after `events`. */
  lemma FirstCloseAt(q: seq<Entry>, events: seq<Entry>, rest: seq<Entry>, k: int)
    requires q == events + [Close] + rest && Close !in events
    requires 0 <= k <= |q| && EndsAtFirstClose(q[..k])
    ensures k == |events| + 1
  {
    assert q[..k][..k - 1] == q[..k - 1];
    CloseInLongerPrefix(q, events, rest, k - 1);
  }

  /** Every prefix reaching past `events` contains the sentinel after them. */
  lemma CloseInLongerPrefix(q: seq<Entry>, events: seq<Entry>, rest: seq<Entry>, j: int)
    requires q == events + [Close] + rest
    ensures |events| < j <= |q| ==> Close in q[..j]
  {
    if |events| < j <= |q| {
      assert q[..j][|events|] == Close;
    }
  }

  /** A channel holding a sentinel splits at its first sentinel into events, the sentinel, and the rest. */
  lemma {:induction false} SplitAtFirstClose(q: seq<Entry>) returns (events: seq<Entry>, rest: seq<Entry>)
    requires Close in q
    ensures q == events + [Close] + rest && Close !in events
  {
    if q[0] == Close {
      events, rest := [], q[1..];
    } else {
      assert Close in q[1..] by { assert q == [q[0]] + q[1..]; }
      var e, r := SplitAtFirstClose(q[1..]);
      events, rest := [q[0]] + e, r;
      assert q == [q[0]] + q[1..];
    }
  }

  /** A run that ends at the first sentinel of `events + [Close] + rest` took `events + [Close]` and left `rest`. */
  lemma TakenUpToFirstClose(s: State, r: Step, events: seq<Entry>, rest: seq<Entry>)
    requires s.queue == events + [Close] + rest && Close !in events
    requires ConsumedPrefix(s, r) && EndsAtFirstClose(Taken(s, r))
    ensures Taken(s, r) == events + [Close]
    ensures r.state.queue == rest
    ensures Trace(s.listeners, Taken(s, r)) == Trace(s.listeners, events)
  {
    FirstCloseAt(s.queue, events, rest, TakenCount(s, r));
    assert s.queue[..|events| + 1] == events + [Close];
    assert s.queue[|events| + 1..] == rest;
    TraceAppend(s.listeners, events, [Close]);
    TraceSingle(s.listeners, Close);
  }

  /** A sentinel that ends the taken prefix lies in the channel. */
  lemma ClosePresent(s: State, r: Step)
    requires ConsumedPrefix(s, r) && EndsAtFirstClose(Taken(s, r))
    ensures Close in s.queue
  {
  }

  /**
   * `handle_until_closed` on `e1..en ++ [Close] ++ rest`: dispatches the
   * events in channel order (inline, or handed to the adapter together with
   * the sentinel), ends normally with the flag set, and leaves `rest` unread.
   */
  lemma UntilClosedStopsAtFirstClose(s: State, via: CallVia, events: seq<Entry>, rest: seq<Entry>)
    requires !s.closed && s.queue == events + [Close] + rest && Close !in events
    ensures HandleUntilClosed(s, via).outcome == Returned
    ensures HandleUntilClosed(s, via).state == s.(queue := rest, closed := true)
    ensures via == Inline ==> HandleUntilClosed(s, via).calls == Trace(s.listeners, events)
    ensures via == Adapter ==> HandleUntilClosed(s, via).scheduled == events + [Close]
  {
    var r := HandleUntilClosed(s, via);
    assert Close in s.queue by { assert s.queue[|events|] == Close; }
    assert r.outcome == Returned;
    TakenUpToFirstClose(s, r, events, rest);
  }

  /** `handle_until_closed` on a channel without a sentinel dispatches everything and then blocks. */
  lemma UntilClosedBlocksWithoutClose(s: State, via: CallVia)
    requires !s.closed && Close !in s.queue
    ensures HandleUntilClosed(s, via).outcome == Blocked
    ensures HandleUntilClosed(s, via).state == s.(queue := [])
    ensures via == Inline ==> HandleUntilClosed(s, via).calls == Trace(s.listeners, s.queue)
    ensures via == Adapter ==> HandleUntilClosed(s, via).scheduled == s.queue
  {
    var r := HandleUntilClosed(s, via);
    if r.outcome == Returned {
      ClosePresent(s, r);
      assert false;
    }
    assert s.queue[..|s.queue|] == s.queue;
  }

  /** `handle_until_blocking` on a channel of events only: all dispatched in order, empty channel, normal return. */
  lemma UntilBlockingDrainsEvents(s: State)
    requires !s.closed && Close !in s.queue
    ensures HandleUntilBlocking(s).outcome == Returned
    ensures HandleUntilBlocking(s).state == s.(queue := [])
    ensures HandleUntilBlocking(s).calls == Trace(s.listeners, s.queue)
  {
    var r := HandleUntilBlocking(s);
    if r.outcome == Raised(Closed) {
      ClosePresent(s, r);
      assert false;
    }
    assert s.queue[..|s.queue|] == s.queue;
  }

  /**
   * `handle_until_blocking` that meets a sentinel: the events before it are
   * dispatched, the flag is set, the following iteration raises `Closed`,
   * and the entries after the sentinel stay in the channel.
   */
  lemma UntilBlockingRaisesAfterClose(s: State, events: seq<Entry>, rest: seq<Entry>)
    requires !s.closed && s.queue == events + [Close] + rest && Close !in events
    ensures HandleUntilBlocking(s).outcome == Raised(Closed)
    ensures HandleUntilBlocking(s).state == s.(queue := rest, closed := true)
    ensures HandleUntilBlocking(s).calls == Trace(s.listeners, events)
  {
    var r := HandleUntilBlocking(s);
    assert s.queue[|events|] == Close;
    assert r.outcome == Raised(Closed);
    TakenUpToFirstClose(s, r, events, rest);
  }

  /** A fired event is dispatched after everything already queued (FIFO). */
  lemma FiredEventIsDispatchedLast(s: State, signal: string, args: seq<Value>, kwargs: Kwargs)
    requires !s.closed && Close !in s.queue
    ensures HandleUntilBlocking(Fire(s, signal, args, kwargs)).calls
      == Trace(s.listeners, s.queue) + Dispatch(s.listeners, Event(signal, args, kwargs))
  {
    var f := Fire(s, signal, args, kwargs);
    assert f.queue == s.queue + [Event(signal, args, kwargs)];
    UntilBlockingDrainsEvents(f);
    TraceAppend(s.listeners, s.queue, [Event(signal, args, kwargs)]);
    TraceSingle(s.listeners, Event(signal, args, kwargs));
  }

  /** A close put by either end after the queued events ends `handle_until_closed` after dispatching them. */
  lemma CloseEndsLoop(s: State, via: CallVia)
    requires !s.closed && Close !in s.queue
    ensures HandleUntilClosed(SenderClose(s), via) == HandleUntilClosed(ReceiverClose(s), via)
    ensures HandleUntilClosed(SenderClose(s), via).outcome == Returned
    ensures HandleUntilClosed(SenderClose(s), via).state == s.(queue := [], closed := true)
    ensures via == Inline ==> HandleUntilClosed(SenderClose(s), via).calls == Trace(s.listeners, s.queue)
  {
    var c := SenderClose(s);
    assert c.queue == s.queue + [Close] + [];
    UntilClosedStopsAtFirstClose(c, via, s.queue, []);
  }

  /** `coro_handle_next` behaves as `handle_next` with inline dispatch. */
  lemma CoroHandleNextIsHandleNext(s: State, mode: ReadMode)
    ensures CoroHandleNext(s, mode) == HandleNext(s, mode, Inline)
  {
  }

  /** `coro_handle_until_closed` behaves as `handle_until_closed` with inline dispatch. */
  lemma {:induction false} CoroUntilClosedIsUntilClosed(s: State)
    ensures CoroHandleUntilClosed(s) == HandleUntilClosed(s, Inline)
    decreases |s.queue|
  {
    if !s.closed {
      CoroHandleNextIsHandleNext(s, Blocking);
      var r := HandleNext(s, Blocking, Inline);
      if r.outcome == Returned {
        CoroUntilClosedIsUntilClosed(r.state);
      }
    }
  }

  /**
   * Handing dispatch to an adapter (the thread-bridged mode) changes only
   * where listeners run: the loop itself calls no listener, reaches the same
   * state and outcome, and running the handed-over dispatches in order makes
   * exactly the calls of the inline loop.
   */
  lemma AdapterDispatchMatchesInline(s: State)
    ensures HandleUntilClosed(s, Adapter).calls == []
    ensures HandleUntilClosed(s, Adapter).state == HandleUntilClosed(s, Inline).state
    ensures HandleUntilClosed(s, Adapter).outcome == HandleUntilClosed(s, Inline).outcome
    ensures RunScheduled(HandleUntilClosed(s, Adapter).state, HandleUntilClosed(s, Adapter).scheduled).calls
      == HandleUntilClosed(s, Inline).calls
  {
    var a := HandleUntilClosed(s, Adapter);
    var i := HandleUntilClosed(s, Inline);
    if !s.closed {
      if Close in s.queue {
        var events, rest := SplitAtFirstClose(s.queue);
        UntilClosedStopsAtFirstClose(s, Adapter, events, rest);
        UntilClosedStopsAtFirstClose(s, Inline, events, rest);
        TraceAppend(s.listeners, events, [Close]);
        TraceSingle(s.listeners, Close);
      } else {
        UntilClosedBlocksWithoutClose(s, Adapter);
        UntilClosedBlocksWithoutClose(s, Inline);
      }
    }
  }

  /**
   * The flag does not stop handed-over dispatches: the thread-bridged loop
   * sets the flag when it reads the sentinel, and the adapter then still
   * calls the listeners of every event read before it.
   */
  lemma DeferredDispatchAfterClose(s: State, events: seq<Entry>, rest: seq<Entry>)
    requires !s.closed && s.queue == events + [Close] + rest && Close !in events
    ensures HandleUntilClosed(s, Adapter).state.closed
    ensures RunScheduled(HandleUntilClosed(s, Adapter).state, HandleUntilClosed(s, Adapter).scheduled).calls
      == Trace(s.listeners, events)
  {
    UntilClosedStopsAtFirstClose(s, Adapter, events, rest);
    TraceAppend(s.listeners, events, [Close]);
    TraceSingle(s.listeners, Close);
  }
}
