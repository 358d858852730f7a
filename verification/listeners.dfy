/**
 * The receiver's listener registry and the dispatch rule used by every
 * consumption mode.
 */
module Listeners {
  import opened Channel

  /** An opaque name for a registered callback. */
  datatype ListenerId = ListenerId(name: string)

  /** One invocation of a listener, with the arguments it was given. */
  datatype Call = Call(listener: ListenerId, args: seq<Value>, kwargs: Kwargs)

  /** Signal name to the callbacks connected to it, in registration order. */
  type Registry = map<string, seq<ListenerId>>

  /**
   * `connect(signal, cb)`: appends `cb` to the listeners of `signal`, creating
   * the list if it is absent. No de-duplication; every other signal keeps its list.
   */
  function Connect(reg: Registry, signal: string, cb: ListenerId): (reg': Registry)
    ensures reg'.Keys == reg.Keys + {signal}
    ensures signal in reg ==> reg'[signal] == reg[signal] + [cb]
    ensures signal !in reg ==> reg'[signal] == [cb]
    ensures forall other :: other in reg && other != signal ==> reg'[other] == reg[other]
  {
    if signal in reg then reg[signal := reg[signal] + [cb]]
    else reg[signal := [cb]]
  }

  /** The `for listener in ...` loop: each listener once, in order, with the same arguments. */
  function Fanout(ls: seq<ListenerId>, args: seq<Value>, kwargs: Kwargs): (calls: seq<Call>)
    ensures |calls| == |ls|
    ensures forall i :: 0 <= i < |ls| ==> calls[i] == Call(ls[i], args, kwargs)
  {
    if ls == [] then []
    else [Call(ls[0], args, kwargs)] + Fanout(ls[1..], args, kwargs)
  }

  /**
   * The listener calls made when `e` is handled: for an event, exactly the
   * listeners registered for its signal, in registration order, each with the
   * event's arguments; nothing for an unknown signal or for the close sentinel.
   */
  function Dispatch(reg: Registry, e: Entry): (calls: seq<Call>)
    ensures e.Close? ==> calls == []
    ensures e.Event? && e.signal !in reg ==> calls == []
    ensures e.Event? && e.signal in reg ==>
      && |calls| == |reg[e.signal]|
      && forall i :: 0 <= i < |calls| ==> calls[i] == Call(reg[e.signal][i], e.args, e.kwargs)
  {
    match e
    case Close => []
    case Event(signal, args, kwargs) =>
      if signal in reg then Fanout(reg[signal], args, kwargs) else []
  }

  /** Reference behaviour of a run of entries: each entry's dispatch, in channel order. */
  function Trace(reg: Registry, es: seq<Entry>): seq<Call>
  {
    if es == [] then [] else Dispatch(reg, es[0]) + Trace(reg, es[1..])
  }

  /** Dispatching consecutive runs of entries concatenates their traces. */
  lemma {:induction false} TraceAppend(reg: Registry, a: seq<Entry>, b: seq<Entry>)
    ensures Trace(reg, a + b) == Trace(reg, a) + Trace(reg, b)
  {
    if a == [] {
      assert a + b == b;
    } else {
      assert (a + b)[0] == a[0];
      assert (a + b)[1..] == a[1..] + b;
      TraceAppend(reg, a[1..], b);
    }
  }

  /** The trace of a single entry is its dispatch. */
  lemma TraceSingle(reg: Registry, e: Entry)
    ensures Trace(reg, [e]) == Dispatch(reg, e)
  {
  }

  /** Close sentinels contribute nothing to a trace. */
  lemma {:induction false} TraceIgnoresClose(reg: Registry, es: seq<Entry>)
    ensures Trace(reg, es) == Trace(reg, Events(es))
  {
    if es != [] {
      TraceIgnoresClose(reg, es[1..]);
      if es[0] != Close {
        assert ([es[0]] + Events(es[1..]))[0] == es[0];
        assert ([es[0]] + Events(es[1..]))[1..] == Events(es[1..]);
      }
    }
  }

  /** Events whose signal has no listeners produce no calls at all. */
  lemma {:induction false} UnknownSignalsAreDropped(reg: Registry, es: seq<Entry>)
    requires forall i :: 0 <= i < |es| ==> es[i].Close? || es[i].signal !in reg
    ensures Trace(reg, es) == []
  {
    if es != [] {
      UnknownSignalsAreDropped(reg, es[1..]);
    }
  }

  /**
   * After `connect(signal, cb)`, an event of `signal` calls the old listeners
   * and then `cb`; an event of any other signal dispatches as before.
   */
  lemma ConnectThenDispatch(reg: Registry, signal: string, cb: ListenerId, e: Entry)
    ensures e.Event? && e.signal == signal ==>
      Dispatch(Connect(reg, signal, cb), e) == Dispatch(reg, e) + [Call(cb, e.args, e.kwargs)]
    ensures !(e.Event? && e.signal == signal) ==>
      Dispatch(Connect(reg, signal, cb), e) == Dispatch(reg, e)
  {
  }
}
