/**
 * Entries of the dispatcher's shared first-in-first-out channel.
 *
 * The sending side puts either an event record or the close sentinel on
 * the channel; the receiving side takes them off in the order they were put.
 * The sentinel is a distinct string in the original and can never be equal
 * to an event record, so it is a variant of its own here.
 */
module Channel {

  /** Payload values passed to listeners; the original accepts any picklable value. */
  datatype Value =
    | IntValue(i: int)
    | StrValue(s: string)
    | BoolValue(b: bool)
    | NoneValue

  /** Keyword arguments of an event. */
  type Kwargs = map<string, Value>

  /** One channel entry: an event record `(signal, args, kwargs)` or the close sentinel. */
  datatype Entry =
    | Event(signal: string, args: seq<Value>, kwargs: Kwargs)
    | Close

  /** Entries of `q` that are events, in channel order. */
  function Events(q: seq<Entry>): (evs: seq<Entry>)
    ensures Close !in evs
    ensures |evs| <= |q|
    ensures Close !in q ==> evs == q
  {
    if q == [] then []
    else if q[0] == Close then Events(q[1..])
    else [q[0]] + Events(q[1..])
  }
}
