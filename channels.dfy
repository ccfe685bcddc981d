/**
 * A buffered Go channel as the ingest code uses it: non-blocking sends
 * (`select` with a `default` case), `close`, and a non-blocking receive.
 */
module Channels {

  import opened Wrappers

  /**
   * The case a `select { case v = <-ch: ... default: ... }` takes. A receive
   * yields Some(head) while the buffer holds values, and the zero value
   * (None) once the channel is closed and drained; only an open, empty
   * channel lets the `default` case run.
   */
  datatype SelectResult<T> = Received(value: Option<T>) | WouldBlock

  function SelectReceive<T>(buffer: seq<T>, closed: bool): SelectResult<T> {
    if |buffer| > 0 then Received(Some(buffer[0]))
    else if closed then Received(None)
    else WouldBlock
  }

  /** A receive on a closed channel can always proceed, so `default` is never taken. */
  lemma ClosedChannelIsAlwaysReady<T>(buffer: seq<T>)
    ensures SelectReceive(buffer, true).Received?
    ensures SelectReceive(buffer, true).value.Some? <==> |buffer| > 0
  {
  }

  class BoundedChannel<T> {
    const capacity: nat
    var buffer: seq<T>
    var closed: bool

    ghost predicate Valid()
      reads this
    {
      |buffer| <= capacity
    }

    /** make(chan T, capacity) */
    constructor (capacity: nat)
      ensures Valid() && this.capacity == capacity && buffer == [] && !closed
    {
      this.capacity := capacity;
      buffer := [];
      closed := false;
    }

    /** `select { case ch <- v: default: }` — the value is dropped when the buffer is full. */
    method TrySend(v: T) returns (sent: bool)
      requires Valid() && !closed
      modifies this
      ensures Valid() && !closed
      ensures sent <==> |old(buffer)| < capacity
      ensures buffer == if sent then old(buffer) + [v] else old(buffer)
    {
      sent := |buffer| < capacity;
      if sent {
        buffer := buffer + [v];
      }
    }

    /** close(ch): closing a closed channel panics in Go, so it is not allowed. */
    method Close()
      requires Valid() && !closed
      modifies this
      ensures Valid() && closed && buffer == old(buffer)
    {
      closed := true;
    }

    /** `select { case v = <-ch: ... default: ... }` */
    method TryReceive() returns (r: SelectResult<T>)
      requires Valid()
      modifies this
      ensures Valid() && closed == old(closed)
      ensures r == SelectReceive(old(buffer), closed)
      ensures buffer == if |old(buffer)| > 0 then old(buffer)[1..] else old(buffer)
    {
      r := SelectReceive(buffer, closed);
      if |buffer| > 0 {
        buffer := buffer[1..];
      }
    }
  }
}
