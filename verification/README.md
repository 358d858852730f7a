# mpdispatcher: the receiver-side dispatch state machine, in Dafny

This project models the core of `mpdispatcher`, a small signal dispatcher.
The sending side puts event records `(signal, args, kwargs)` or a close
sentinel on a shared FIFO channel. The receiving side takes entries off that
channel and calls the listeners connected to each event's signal.

The model has one state record, `Dispatcher.State`. It holds the channel as
a sequence of `Channel.Entry` values, the receiver's listener registry as a
map from signal to `ListenerId`s in registration order, and the receiver's
closed flag. Every operation is a pure function. It returns a `Dispatcher.Step`:
the new state, the listener calls it made inline (a trace of `Call(listener,
args, kwargs)`), the entries whose dispatch it handed to a scheduling
adapter (`call_via`), and how it ended: `Returned`, `Raised(Closed)`,
`Raised(Empty)` or `Blocked`.

Modules:

- `Channel` (channel.dfy): payload values and channel entries. The string
  sentinel `"CLOSE"` becomes the `Close` variant. It can never equal an
  event tuple.
- `Listeners` (listeners.dfy): `connect`, the dispatch rule used by
  `_handle_received`, and the reference trace of a run of entries.
- `Dispatcher` (dispatcher.dfy): `fire`, both `close`s, `_handle_received`,
  `handle_next`, `handle_until_blocking`, `handle_until_closed`,
  `coro_handle_next` and `coro_handle_until_closed`. It also has the
  adapter running deferred dispatches.
- `Loops` (loops.dfy): what the loops do on a channel of the form
  `events ++ [Close] ++ rest`. The coroutine forms agree with the blocking
  ones. Deferred dispatch agrees with inline dispatch.
- `Session` (session.dfy): arbitrary sequences of operations. It proves the
  closed flag is monotonic and that a closed receiver never reads again. It
  also proves end-to-end FIFO dispatch for one producer.
- `Scenarios` (scenarios.dfy): the repository's test scenario, plus a few
  concrete runs a user of the library would expect: three events then a
  close, an unconnected signal, a drain of three events, two sentinels.

Reads are modelled as follows. A read of an empty channel depends on the read
mode. `Blocking` is `q.get()` and ends in `Blocked`: with the transport
abstracted away, nothing else can ever put an entry. `NonBlocking` is
`q.get(block=False)` and `TimedBlocking` is `q.get(timeout=t)`. Both raise
`queue.Empty`, which the model writes `Raised(Empty)`.

Where the code differs from what a reader might expect, the model follows
the code:

- `handle_until_blocking` does not always return normally, although its
  docstring speaks only of handling events until the queue would block
  (mpdispatcher.py:119-120). After it consumes
  a close sentinel, its next iteration raises `Closed`, because the loop
  catches only `queue.Empty` (mpdispatcher.py:126-130). Entries after the
  sentinel stay in the channel.
- `handle_until_closed` on a receiver that is already closed does not raise
  `Closed` as `handle_next` would. Its loop guard is false, so it returns at once without reading
  (mpdispatcher.py:161).
- `coro_handle_next` does not set the flag at read time. It is still equal
  to `handle_next` with inline dispatch, because `_handle_received` sets the
  flag (`Loops.CoroHandleNextIsHandleNext`).

## Model

| member | source | states |
|---|---|---|
| Listeners.Connect | mpdispatcher.py:63-66 | `connect` appends the callback to the end of the signal's list, or creates a one-element list. It does no de-duplication. Every other signal keeps its list. |
| Listeners.Fanout | mpdispatcher.py:76-77 | The listener loop calls each listener exactly once, in list order, with the event's args and kwargs. |
| Listeners.Dispatch | mpdispatcher.py:68-77 | Dispatching an event calls exactly its signal's listeners, in registration order, with its arguments. An unknown signal and the close sentinel call no one. |
| Listeners.TraceIgnoresClose | mpdispatcher.py:69-71 | Close sentinels add no calls to a trace. The trace of any run of entries equals the trace of its events alone. |
| Listeners.UnknownSignalsAreDropped | mpdispatcher.py:74-75 | A run of entries whose signals have no listeners produces no calls at all. |
| Listeners.ConnectThenDispatch | mpdispatcher.py:63-77 | After `connect(s, cb)`, an event of `s` calls the old listeners and then `cb`. Events of other signals dispatch as before. |
| Dispatcher.Fire | mpdispatcher.py:35-39 | `fire` puts exactly one event record at the channel tail. Earlier entries, the registry and the closed flag are unchanged. |
| Dispatcher.SenderClose | mpdispatcher.py:41-45 | The sender's `close` puts exactly one sentinel at the tail. It changes nothing else. |
| Dispatcher.ReceiverClose | mpdispatcher.py:189-193 | The receiver's `close` puts exactly one sentinel at the tail. It does not set the receiver's own flag. |
| Dispatcher.ConnectListener | mpdispatcher.py:63-66 | `connect` on the receiver changes only the registry entry of its signal. The channel and the flag are untouched. |
| Dispatcher.HandleReceived | mpdispatcher.py:68-77 | `_handle_received` sets the flag exactly when given the sentinel. It otherwise dispatches. It never reads the flag or the channel. |
| Dispatcher.EmptyRead | mpdispatcher.py:93 | Reading an empty channel blocks in blocking mode. With `block=False` or a timeout it raises `Empty` and changes nothing. |
| Dispatcher.HandleNext | mpdispatcher.py:79-116 | Raises `Closed` before any read when the flag is set. Otherwise it removes exactly the head entry and sets the flag at read time if that entry is the sentinel. It then dispatches the entry inline or hands it to the adapter without calling anyone. |
| Dispatcher.HandleUntilBlocking | mpdispatcher.py:118-130 | Consumes a prefix of the channel and dispatches it in order. It returns normally only if the channel held no sentinel, and then leaves the channel empty. Otherwise the prefix ends at the first sentinel and the call raises `Closed`. |
| Dispatcher.HandleUntilClosed | mpdispatcher.py:154-162 | Consumes a prefix in FIFO order, dispatched inline or all handed to the adapter. It returns normally exactly when the flag ends up set, which is at the first sentinel. It blocks only on a channel without a sentinel, after draining it. |
| Dispatcher.CoroHandleNext | mpdispatcher.py:132-152 | Raises `Closed` before reading when the flag is set. Otherwise it takes exactly the head entry, and the flag records whether that entry was the sentinel. |
| Dispatcher.CoroHandleUntilClosed | mpdispatcher.py:178-187 | Repeats `coro_handle_next` with blocking reads while the flag is unset. It leaves the registry unchanged and hands nothing to an adapter; its full behaviour is stated by `Loops.CoroUntilClosedIsUntilClosed`. |
| Dispatcher.RunScheduled | mpdispatcher.py:113-116 | Running the handed-over dispatches later makes the calls of their entries in order. It reads no channel entry, and it sets the flag if a sentinel was among them. |
| Loops.UntilClosedStopsAtFirstClose | mpdispatcher.py:111-116 | On `e1..en ++ [Close] ++ rest`, the loop dispatches `e1..en` in FIFO order, or hands them plus the sentinel to the adapter. It returns with the flag set and leaves `rest` untouched. |
| Loops.UntilClosedBlocksWithoutClose | mpdispatcher.py:161-162 | Without a sentinel, the loop dispatches every entry in order, empties the channel and then blocks with the flag still clear. |
| Loops.UntilBlockingDrainsEvents | mpdispatcher.py:126-130 | With events only, `handle_until_blocking` dispatches all of them in order, returns normally and leaves the channel empty. |
| Loops.UntilBlockingRaisesAfterClose | mpdispatcher.py:91-130 | On `e1..en ++ [Close] ++ rest`, it dispatches `e1..en`, sets the flag, raises `Closed` on the next iteration and leaves `rest` unread. |
| Loops.FiredEventIsDispatchedLast | mpdispatcher.py:35-39 | A fired event is dispatched after everything already queued, so the channel is FIFO. |
| Loops.CloseEndsLoop | mpdispatcher.py:41-45 | A close from either end, put after queued events, ends `handle_until_closed` normally once those events are dispatched. The flag ends up set and the channel empty. |
| Loops.CoroHandleNextIsHandleNext | mpdispatcher.py:132-152 | `coro_handle_next` equals `handle_next` with inline dispatch, for every state and read mode. |
| Loops.CoroUntilClosedIsUntilClosed | mpdispatcher.py:178-187 | `coro_handle_until_closed` equals `handle_until_closed` with inline dispatch, for every state. |
| Loops.AdapterDispatchMatchesInline | mpdispatcher.py:164-176 | In the thread-bridged loop no listener runs on the loop itself. It reaches the same state and outcome as the inline loop. Running the handed-over dispatches gives exactly the inline calls. |
| Loops.DeferredDispatchAfterClose | mpdispatcher.py:111-116 | In the thread-bridged loop the flag is set when the sentinel is read, yet the adapter then still calls the listeners of every event read before it, because `_handle_received` never checks the flag. |
| Session.Apply | mpdispatcher.py:35-193 | No operation clears a set flag, and once the flag is set none reads, dispatches or blocks. Senders and `connect` never touch the flag. Only `connect` touches the registry. |
| Session.ClosedFlagIsMonotonic | mpdispatcher.py:68-116 | Once set, the closed flag stays set through any sequence of operations. |
| Session.ClosedReceiverNeverConsumes | mpdispatcher.py:146-147 | After the flag is set, no sequence of public operations calls or schedules a listener, blocks, or removes a channel entry. Dispatches handed to an adapter before the flag was set are not among these operations (see `Loops.DeferredDispatchAfterClose`). |
| Session.FiredThenClosedIsDispatchedInOrder | mpdispatcher.py:154-162 | Take a fresh receiver. One producer fires events and closes, then `handle_until_closed` runs. Each event's listeners are called in firing order with its arguments, and the loop returns with the flag set and the channel empty. |
| Scenarios.ReceiveSingleEvent | tests/test_basic.py:9-15 | With `cb` connected to "cb", `fire("cb", 54)` then `handle_next(timeout=2)` calls `cb(54)` once. |
| Scenarios.TimedReadOfEmptyChannel | mpdispatcher.py:93 | A timed read with nothing fired raises `Empty` and calls no one. |
| Scenarios.ThreeEventsThenClose | mpdispatcher.py:154-162 | Firing 43, 54 and 87 and then closing makes `handle_until_closed` call `cb` with 43, 54, 87 in that order. It returns with the flag set. |
| Scenarios.UnconnectedSignalIsNoOp | mpdispatcher.py:74-75 | An event of a signal nobody connected to is taken off the channel without any call or error. |
| Scenarios.DrainThreeEvents | mpdispatcher.py:118-130 | Three queued events are dispatched by `handle_until_blocking` as `cb(1)`, `cb(2)`, `cb(3)` in that order. It returns normally with an empty channel. |
| Scenarios.SecondCloseIsNeverRead | mpdispatcher.py:189-193 | Given two sentinels, the first stops `handle_until_closed` and the second stays queued. A later `handle_next` raises `Closed` without reading it. |

## Left out

- Process, thread and coroutine machinery is not modelled. That covers the `multiprocessing.Queue` transport, pickling across processes and the `MpDispatcher.__init__` wiring (mpdispatcher.py:18-22). It also covers the executor in `threaded_handle_until_closed` and the thread pool and event loop of the coroutine forms. The channel is an abstract FIFO sequence with a single consumer. The threaded mode is modelled only by its loop, `handle_until_closed` with `call_via` (`Loops.AdapterDispatchMatchesInline`).
- Interleaving of several producers is not modelled. Each operation is one atomic step on the shared state.
- Wall-clock timeouts and real blocking are not modelled. A timed read of an empty channel raises `Empty` at once. A blocking read of an empty channel ends the operation as `Blocked`.
- Listener exceptions aborting a loop (mpdispatcher.py:72, 76-77) are not modelled. Listeners are opaque ids with no effects.
- Listeners with side effects are not modelled, such as one that calls `close()` from inside a callback. The self-closing scenario is therefore stated only through its effect on the channel: a sentinel put after an event stops the loop right after that event (`Loops.UntilClosedStopsAtFirstClose`).
- `__del__` calling `close` (mpdispatcher.py:60-61) is left out because it depends on garbage-collector timing.
- The unused `MpDispatchSender.closed` field (mpdispatcher.py:33) is left out.
- Argument values are limited to a few kinds (`Channel.Value`). The original accepts any picklable value.
- Dispatcher.CoroHandleUntilClosed: its own contract states only that the registry is unchanged and nothing is scheduled. Its behaviour is given by `Loops.CoroUntilClosedIsUntilClosed`.
- Session.ClosedReceiverNeverConsumes: covers only the public operations. The adapter running dispatches it was handed (`Dispatcher.RunScheduled`) is not an operation of the session, and it does call listeners after the flag is set; `Loops.DeferredDispatchAfterClose` states this exception.
- Loops.AdapterDispatchMatchesInline: assumes the adapter runs the handed-over dispatches against the registry the loop started with. A `connect` made between the hand-over and the run would change which listeners are called.
- setup.py, doc/conftest.py and the process-spawning parts of the tests are packaging and test plumbing, so they are left out.
