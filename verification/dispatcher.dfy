/**
 * The dispatcher's state machine: the shared channel, the receiver's
 * registry and closed flag, the two sending operations and the receiving
 * operations, with the transport, threads and coroutines abstracted away.
 */
module Dispatcher {
  import opened Channel
  import opened Listeners

  /**
   * The channel shared by sender and receiver, plus the state private to
   * one receiver: its listener registry and its closed flag.
   */
  datatype State = State(queue: seq<Entry>, listeners: Registry, closed: bool)

  /** A fresh receiver over an empty channel: no listeners, not closed. */
  const Initial := State([], map[], false)

  /** How the receiver reads the channel (the keyword arguments of `q.get`). */
  datatype ReadMode =
    | Blocking        // `q.get()`: waits for an entry
    | NonBlocking     // `q.get(block=False)`: raises `queue.Empty` at once
    | TimedBlocking   // `q.get(timeout=t)`: raises `queue.Empty` when nothing arrives

  /** Whether a read entry is dispatched inline or handed to a scheduling adapter. */
  datatype CallVia = Inline | Adapter

  /** The exceptions a consumption operation can raise. */
  datatype Error = Closed | Empty

  /**
   * How an operation ends: normally, by raising, or by blocking on an empty
   * channel (in a sequential world nothing else can ever put an entry).
   */
  datatype Outcome = Returned | Raised(error: Error) | Blocked

  /**
   * The effect of one operation: the new state, the listener calls it made
   * inline, and the entries whose dispatch it handed to the adapter.
   */
  datatype Step = Step(state: State, calls: seq<Call>, scheduled: seq<Entry>, outcome: Outcome)

  /** Number of channel entries an operation took off the front of the channel. */
  function TakenCount(s: State, r: Step): int
  {
    |s.queue| - |r.state.queue|
  }

  /** `r` removed some prefix of `s`'s channel and left the rest in order. */
  predicate ConsumedPrefix(s: State, r: Step)
  {
    0 <= TakenCount(s, r) && r.state.queue == s.queue[TakenCount(s, r)..]
  }

  /** The entries `r` took off the channel, in the order it took them. */
  function Taken(s: State, r: Step): seq<Entry>
    requires ConsumedPrefix(s, r)
  {
    s.queue[..TakenCount(s, r)]
  }

  /** The taken entries are events followed by exactly one close sentinel. */
  predicate EndsAtFirstClose(taken: seq<Entry>)
  {
    |taken| > 0 && taken[|taken| - 1] == Close && Close !in taken[..|taken| - 1]
  }

  // ---------------------------------------------------------------- sender

  /** `fire(signal, *args, **kwargs)`: puts one event record at the channel tail. */
  function Fire(s: State, signal: string, args: seq<Value>, kwargs: Kwargs): (s': State)
    ensures |s'.queue| == |s.queue| + 1
    ensures s'.queue[..|s.queue|] == s.queue
    ensures s'.queue[|s.queue|] == Event(signal, args, kwargs)
    ensures s'.listeners == s.listeners && s'.closed == s.closed
  {
    s.(queue := s.queue + [Event(signal, args, kwargs)])
  }

  /** The sender's `close()`: puts one close sentinel at the channel tail. */
  function SenderClose(s: State): (s': State)
    ensures |s'.queue| == |s.queue| + 1
    ensures s'.queue[..|s.queue|] == s.queue
    ensures s'.queue[|s.queue|] == Close
    ensures s'.listeners == s.listeners && s'.closed == s.closed
  {
    s.(queue := s.queue + [Close])
  }

  /** The receiver's `close()`: the same single put of the close sentinel. */
  function ReceiverClose(s: State): (s': State)
    ensures |s'.queue| == |s.queue| + 1
    ensures s'.queue[..|s.queue|] == s.queue
    ensures s'.queue[|s.queue|] == Close
    ensures s'.listeners == s.listeners && s'.closed == s.closed
  {
    SenderClose(s)
  }

  /** `connect(signal, cb)` on the receiver; the channel and flag are untouched. */
  function ConnectListener(s: State, signal: string, cb: ListenerId): (s': State)
    ensures s'.queue == s.queue && s'.closed == s.closed
    ensures signal in s'.listeners
    ensures s'.listeners[signal] == (if signal in s.listeners then s.listeners[signal] else []) + [cb]
    ensures forall other :: other != signal ==>
      (other in s'.listeners <==> other in s.listeners)
    ensures forall other :: other in s.listeners && other != signal ==>
      s'.listeners[other] == s.listeners[other]
  {
    s.(listeners := Connect(s.listeners, signal, cb))
  }

  // -------------------------------------------------------------- receiver

  /**
   * `_handle_received(obj)`: the close sentinel sets the flag and calls no
   * one; an event calls its signal's listeners. The closed flag is not
   * consulted, and the channel is not read.
   */
  function HandleReceived(s: State, obj: Entry): (r: Step)
    ensures r.state.queue == s.queue && r.state.listeners == s.listeners
    ensures r.state.closed == (s.closed || obj == Close)
    ensures r.calls == Dispatch(s.listeners, obj)
    ensures r.scheduled == [] && r.outcome == Returned
  {
    match obj
    case Close => Step(s.(closed := true), [], [], Returned)
    case Event(_, _, _) => Step(s, Dispatch(s.listeners, obj), [], Returned)
  }

  /** The channel read `q.get(**q_get_kwargs)` on an empty channel. */
  function EmptyRead(s: State, mode: ReadMode): (r: Step)
    ensures r.state == s && r.calls == [] && r.scheduled == []
    ensures r.outcome == Blocked <==> mode == Blocking
    ensures r.outcome != Blocked ==> r.outcome == Raised(Empty)
  {
    if mode == Blocking then Step(s, [], [], Blocked) else Step(s, [], [], Raised(Empty))
  }

  /**
   * `handle_next(call_via, **q_get_kwargs)`: raises `Closed` before any read
   * if the flag is set; otherwise takes exactly the head entry, sets the flag
   * at read time if it is the sentinel, and dispatches it inline or hands
   * its dispatch to the adapter.
   */
  function HandleNext(s: State, mode: ReadMode, via: CallVia): (r: Step)
    ensures r.state.listeners == s.listeners
    ensures s.closed ==> r == Step(s, [], [], Raised(Closed))
    ensures !s.closed && s.queue == [] ==> r == EmptyRead(s, mode)
    ensures !s.closed && s.queue != [] ==>
      && r.outcome == Returned
      && r.state.queue == s.queue[1..]
      && r.state.closed == (s.queue[0] == Close)
      && (via == Inline ==> r.calls == Dispatch(s.listeners, s.queue[0]) && r.scheduled == [])
      && (via == Adapter ==> r.calls == [] && r.scheduled == [s.queue[0]])
  {
    if s.closed then Step(s, [], [], Raised(Closed))
    else if s.queue == [] then EmptyRead(s, mode)
    else
      var obj := s.queue[0];
      var read := s.(queue := s.queue[1..]);
      var read := if obj == Close then read.(closed := true) else read;
      match via
      case Inline =>
        var h := HandleReceived(read, obj);
        Step(h.state, h.calls, [], Returned)
      case Adapter => Step(read, [], [obj], Returned)
  }

  /**
   * `handle_until_blocking()`: non-blocking `handle_next` until the channel
   * is empty. Only `queue.Empty` ends the loop normally; once a close
   * sentinel has been consumed the next iteration raises `Closed`, leaving
   * later entries unread.
   */
  function HandleUntilBlocking(s: State): (r: Step)
    ensures r.state.listeners == s.listeners && r.scheduled == []
    ensures r.outcome == Returned || r.outcome == Raised(Closed)
    ensures s.closed ==> r == Step(s, [], [], Raised(Closed))
    ensures ConsumedPrefix(s, r)
    ensures r.calls == Trace(s.listeners, Taken(s, r))
    ensures r.outcome == Returned ==> !s.closed && Close !in s.queue && r.state.queue == [] && !r.state.closed
    ensures r.outcome == Raised(Closed) ==> r.state.closed
    ensures r.outcome == Raised(Closed) && !s.closed ==> EndsAtFirstClose(Taken(s, r))
    decreases |s.queue|
  {
    var r := HandleNext(s, NonBlocking, Inline);
    if r.outcome == Raised(Empty) then Step(r.state, [], [], Returned)
    else if r.outcome != Returned then r
    else
      var rest := HandleUntilBlocking(r.state);
      var out := Step(rest.state, r.calls + rest.calls, [], rest.outcome);
      PrependTaken(s, r.state, rest, out);
      out
  }

  /**
   * `handle_until_closed(call_via)`: `handle_next` with a blocking read while
   * the flag is unset. An already-closed receiver returns at once without
   * reading; a channel that runs dry without a sentinel blocks.
   */
  function HandleUntilClosed(s: State, via: CallVia): (r: Step)
    ensures r.state.listeners == s.listeners
    ensures r.outcome == Returned || r.outcome == Blocked
    ensures s.closed ==> r == Step(s, [], [], Returned)
    ensures ConsumedPrefix(s, r)
    ensures via == Inline ==> r.calls == Trace(s.listeners, Taken(s, r)) && r.scheduled == []
    ensures via == Adapter ==> r.calls == [] && r.scheduled == Taken(s, r)
    ensures r.outcome == Returned <==> r.state.closed
    ensures r.outcome == Blocked ==> Close !in s.queue && r.state.queue == []
    ensures r.outcome == Returned && !s.closed ==> EndsAtFirstClose(Taken(s, r))
    decreases |s.queue|
  {
    if s.closed then Step(s, [], [], Returned)
    else
      var r := HandleNext(s, Blocking, via);
      if r.outcome != Returned then r
      else
        var rest := HandleUntilClosed(r.state, via);
        var out := Step(rest.state, r.calls + rest.calls, r.scheduled + rest.scheduled, rest.outcome);
        PrependTaken(s, r.state, rest, out);
        out
  }

  /**
   * `coro_handle_next(pool, **q_get_kwargs)`: the same guard, then the read
   * (run in the pool), then `_handle_received` inline in the caller's
   * context; this path does not set the flag at read time itself.
   */
  function CoroHandleNext(s: State, mode: ReadMode): (r: Step)
    ensures r.state.listeners == s.listeners && r.scheduled == []
    ensures s.closed ==> r == Step(s, [], [], Raised(Closed))
    ensures !s.closed && s.queue != [] ==>
      r.outcome == Returned && r.state.queue == s.queue[1..] && r.state.closed == (s.queue[0] == Close)
  {
    if s.closed then Step(s, [], [], Raised(Closed))
    else if s.queue == [] then EmptyRead(s, mode)
    else
      var obj := s.queue[0];
      HandleReceived(s.(queue := s.queue[1..]), obj)
  }

  /** `coro_handle_until_closed()`: `coro_handle_next` with blocking reads while the flag is unset. */
  function CoroHandleUntilClosed(s: State): (r: Step)
    ensures r.state.listeners == s.listeners && r.scheduled == []
    decreases |s.queue|
  {
    if s.closed then Step(s, [], [], Returned)
    else
      var r := CoroHandleNext(s, Blocking);
      if r.outcome != Returned then r
      else
        var rest := CoroHandleUntilClosed(r.state);
        Step(rest.state, r.calls + rest.calls, [], rest.outcome)
  }

  /**
   * The adapter running the handed-over dispatches later, in the order they
   * were handed over: `_handle_received` for each, which never looks at the
   * closed flag and never reads the channel.
   */
  function RunScheduled(s: State, thunks: seq<Entry>): (r: Step)
    ensures r.state.queue == s.queue && r.state.listeners == s.listeners
    ensures r.state.closed == (s.closed || Close in thunks)
    ensures r.calls == Trace(s.listeners, thunks)
    ensures r.scheduled == [] && r.outcome == Returned
    decreases |thunks|
  {
    if thunks == [] then Step(s, [], [], Returned)
    else
      var h := HandleReceived(s, thunks[0]);
      var rest := RunScheduled(h.state, thunks[1..]);
      assert Close in thunks <==> thunks[0] == Close || Close in thunks[1..] by {
        assert thunks == [thunks[0]] + thunks[1..];
      }
      Step(rest.state, h.calls + rest.calls, [], Returned)
  }

  /**
   * One loop iteration took the head of `s`'s channel and left `tail`; the
   * rest of the loop `rest` then ran from `tail`. What the two took together,
   * as seen from the final step `out`, is the head followed by what `rest` took.
   */
  lemma PrependTaken(s: State, tail: State, rest: Step, out: Step)
    requires s.queue != [] && tail.queue == s.queue[1..]
    requires ConsumedPrefix(tail, rest) && out.state.queue == rest.state.queue
    ensures ConsumedPrefix(s, out)
    ensures Taken(s, out) == [s.queue[0]] + Taken(tail, rest)
    ensures Trace(s.listeners, Taken(s, out))
      == Dispatch(s.listeners, s.queue[0]) + Trace(s.listeners, Taken(tail, rest))
    ensures s.queue[0] != Close && EndsAtFirstClose(Taken(tail, rest)) ==> EndsAtFirstClose(Taken(s, out))
    ensures s.queue[0] == Close && Taken(tail, rest) == [] ==> EndsAtFirstClose(Taken(s, out))
    ensures s.queue[0] != Close && Close !in tail.queue ==> Close !in s.queue
  {
  }
}
