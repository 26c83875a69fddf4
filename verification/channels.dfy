/**
 * Go channels and contexts as a single goroutine observes them, and the
 * primitives of mychannel/read_write.go and mychannel/drain.go.
 *
 * A channel is a FIFO buffer with a capacity and a closed flag; a context is
 * reduced to whether it is done. A `select` whose cases are both ready picks
 * one at random: the pick is an explicit parameter. A `select` with no ready
 * case blocks; those calls are excluded by a precondition.
 */
module Channels {

  /** A context.Context reduced to whether Done() is closed. */
  class Context {
    var cancelled: bool

    constructor (cancelled: bool)
      ensures this.cancelled == cancelled
    {
      this.cancelled := cancelled;
    }

    /** context.WithCancel: a child that starts in its parent's cancellation state. */
    constructor WithCancel(parent: Context)
      ensures cancelled == parent.cancelled
    {
      cancelled := parent.cancelled;
    }

    /** The CancelFunc of a WithCancel context. */
    method Cancel()
      modifies this
      ensures cancelled
    {
      cancelled := true;
    }
  }

  /** A `chan T` made with `make(chan T, cap)`. */
  class Chan<T> {
    var buf: seq<T>
    const cap: nat
    var closed: bool

    constructor Make(cap: nat)
      ensures this.cap == cap && buf == [] && !closed
    {
      this.cap := cap;
      buf := [];
      closed := false;
    }

    /** A send would not block. */
    predicate HasRoom()
      reads this
    {
      |buf| < cap
    }

    /** A receive would not block: a value is buffered or the channel is closed. */
    predicate Receivable()
      reads this
    {
      buf != [] || closed
    }

    /** close(ch); closing a closed channel panics, so it is excluded. */
    method Close()
      requires !closed
      modifies this
      ensures closed && buf == old(buf)
    {
      closed := true;
    }

    /** `v := <-ch` when a value is buffered (also after close). */
    method Receive() returns (v: T)
      requires buf != []
      modifies this
      ensures v == old(buf[0]) && buf == old(buf[1..]) && closed == old(closed)
    {
      v := buf[0];
      buf := buf[1..];
    }

    /** `ch <- v` when the buffer has room; a send on a closed channel panics. */
    method Send(v: T)
      requires !closed && HasRoom()
      modifies this
      ensures buf == old(buf) + [v] && closed == old(closed)
    {
      buf := buf + [v];
    }
  }

  /**
   * Whether a two-case `select` takes its first case: the first case must be
   * ready, and when both are ready the scheduler's pick decides.
   */
  predicate FirstCaseTaken(firstReady: bool, secondReady: bool, pickFirst: bool)
  {
    firstReady && (!secondReady || pickFirst)
  }

  /**
   * ReadOne: one receive from `source` raced against the context's Done channel.
   * `zero` stands for Go's zero value of T.
   */
  method ReadOne<T>(ctx: Context, source: Chan<T>, zero: T, pickReceive: bool)
    returns (val: T, chOK: bool, ctxAlive: bool)
    requires source.Receivable() || ctx.cancelled
    modifies source
    ensures ctxAlive == FirstCaseTaken(old(source.Receivable()), ctx.cancelled, pickReceive)
    ensures chOK == (ctxAlive && old(source.buf) != [])
    ensures chOK ==> ctxAlive
    ensures chOK ==> val == old(source.buf[0]) && source.buf == old(source.buf[1..])
    ensures !chOK ==> val == zero && source.buf == old(source.buf)
    ensures source.closed == old(source.closed)
  {
    if FirstCaseTaken(source.Receivable(), ctx.cancelled, pickReceive) {
      if source.buf != [] {
        val := source.Receive();
        return val, true, true;
      }
      return zero, false, true;
    }
    return zero, false, false;
  }

  /**
   * WriteOne: one send of `val` on `out` raced against the context's Done
   * channel. A send case on a closed channel panics when chosen, so `out` is
   * required to be open.
   */
  method WriteOne<T>(ctx: Context, out: Chan<T>, val: T, pickSend: bool) returns (ctxAlive: bool)
    requires !out.closed
    requires out.HasRoom() || ctx.cancelled
    modifies out
    ensures ctxAlive == FirstCaseTaken(old(out.HasRoom()), ctx.cancelled, pickSend)
    ensures out.buf == if ctxAlive then old(out.buf) + [val] else old(out.buf)
    ensures !out.closed
  {
    if FirstCaseTaken(out.HasRoom(), ctx.cancelled, pickSend) {
      out.Send(val);
      return true;
    }
    return false;
  }

  /**
   * Drain: close the channel, then receive and discard until it is empty.
   * The channel must be open, since closing a closed channel panics.
   */
  method Drain<T>(ch: Chan<T>)
    requires !ch.closed
    modifies ch
    ensures ch.closed && ch.buf == []
  {
    ch.Close();
    while ch.buf != []
      invariant ch.closed
      decreases |ch.buf|
    {
      var _ := ch.Receive();
    }
  }
}
